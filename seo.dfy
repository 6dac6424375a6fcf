/**
 * Page metadata (src/lib/seo.ts): the URLs, robots flags and shared fields of
 * `generateSEOMetadata`, and the Service record of `serviceStructuredData`.
 * An absent property is `None` (JavaScript `undefined`), which is when the
 * destructuring default applies; the environment is a parameter.
 */
module Seo {
  import opened Wrappers
  import opened Js

  const SiteUrl: string := "https://www.cdentertainment.co"
  const SiteName: string := "CD Entertainment"
  const DefaultTitle: string := "CD Entertainment - Professional DJ Services"
  const DefaultDescription: string := "Professional DJ services for weddings, parties, corporate events, and more. Quality entertainment with state-of-the-art equipment and experienced DJs."
  const DefaultKeywords: seq<string> := [
    "DJ services", "wedding DJ", "party DJ", "corporate events", "live sound",
    "equipment rental", "professional entertainment", "music services",
    "event planning", "sound system rental"]
  const DefaultOgImage: string := "/images/og-default.jpg"

  datatype OgType = Website | Article | Profile
  datatype TwitterCard = Summary | SummaryLargeImage | App | Player

  datatype SeoProps = SeoProps(
    title: Option<string>,
    description: Option<string>,
    keywords: Option<seq<string>>,
    canonicalUrl: Option<string>,
    ogImage: Option<string>,
    ogType: Option<OgType>,
    twitterCard: Option<TwitterCard>,
    noIndex: Option<bool>)

  /** `process.env`: the base URL and the three verification ids. */
  datatype Env = Env(baseUrl: Option<string>, google: Option<string>, yandex: Option<string>, yahoo: Option<string>)

  datatype Image = Image(url: string, width: nat, height: nat, alt: string)
  datatype OpenGraph = OpenGraph(title: string, description: string, url: string, siteName: string,
                                 images: seq<Image>, locale: string, ogType: OgType)
  datatype Twitter = Twitter(card: TwitterCard, title: string, description: string, images: seq<string>,
                             creator: string, site: string)
  datatype Robots = Robots(index: bool, follow: bool, googleBotIndex: bool, googleBotFollow: bool,
                           maxVideoPreview: int, maxImagePreview: string, maxSnippet: int)
  datatype Verification = Verification(google: Option<string>, yandex: Option<string>, yahoo: Option<string>)
  datatype Metadata = Metadata(
    title: string,
    description: string,
    keywords: string,
    creator: string,
    metadataBase: string,
    canonical: string,
    openGraph: OpenGraph,
    twitter: Twitter,
    robots: Robots,
    verification: Verification)

  /** `NEXT_PUBLIC_BASE_URL || 'https://www.cdentertainment.co'` */
  function BaseUrl(env: Env): (r: string)
    ensures r != ""
    ensures env.baseUrl.Some? && env.baseUrl.value != "" ==> r == env.baseUrl.value
    ensures env.baseUrl.None? || env.baseUrl.value == "" ==> r == SiteUrl
  {
    if env.baseUrl.Some? && env.baseUrl.value != "" then env.baseUrl.value else SiteUrl
  }

  /** `canonicalUrl ? base + canonicalUrl : base` */
  function CanonicalUrl(base: string, canonicalUrl: Option<string>): (r: string)
    ensures StartsWith(r, base)
  {
    if canonicalUrl.Some? && canonicalUrl.value != "" then base + canonicalUrl.value else base
  }

  /** The canonical URL extends the base, and is the base alone exactly when no path was given. */
  lemma CanonicalExtendsBase(base: string, canonicalUrl: Option<string>)
    ensures StartsWith(CanonicalUrl(base, canonicalUrl), base)
    ensures CanonicalUrl(base, canonicalUrl) == base <==> canonicalUrl.None? || canonicalUrl.value == ""
    ensures canonicalUrl.Some? ==> CanonicalUrl(base, canonicalUrl)[|base|..] == canonicalUrl.value
  {
    var r := CanonicalUrl(base, canonicalUrl);
    assert r[..|base|] == base;
    if canonicalUrl.Some? && canonicalUrl.value != "" {
      assert |r| > |base|;
    }
  }

  /** `ogImage.startsWith('http') ? ogImage : base + ogImage` */
  function OgImageUrl(base: string, ogImage: string): (r: string)
    ensures |ogImage| <= |r| && r[|r| - |ogImage|..] == ogImage
  {
    if StartsWith(ogImage, "http") then ogImage else base + ogImage
  }

  /** With an absolute base, the image URL is absolute, and resolving it again changes nothing. */
  lemma OgImageAbsolute(base: string, ogImage: string)
    requires StartsWith(base, "http")
    ensures StartsWith(OgImageUrl(base, ogImage), "http")
    ensures OgImageUrl(base, OgImageUrl(base, ogImage)) == OgImageUrl(base, ogImage)
    ensures StartsWith(ogImage, "http") ==> OgImageUrl(base, ogImage) == ogImage
  {
    var r := base + ogImage;
    assert r[..4] == base[..4];
  }

  /** The default image is relative, so it resolves under the base. */
  lemma DefaultImageOnSite()
    ensures OgImageUrl(SiteUrl, DefaultOgImage) == SiteUrl + DefaultOgImage
  {
    assert DefaultOgImage[..4][0] == '/' != "http"[0];
  }

  /** `generateSEOMetadata` */
  function GenerateMetadata(props: SeoProps, env: Env): Metadata {
    var title := props.title.GetOr(DefaultTitle);
    var description := props.description.GetOr(DefaultDescription);
    var noIndex := props.noIndex.GetOr(false);
    var base := BaseUrl(env);
    var canonical := CanonicalUrl(base, props.canonicalUrl);
    var image := OgImageUrl(base, props.ogImage.GetOr(DefaultOgImage));
    Metadata(
      title,
      description,
      Join(props.keywords.GetOr(DefaultKeywords), ", "),
      SiteName,
      base,
      canonical,
      OpenGraph(title, description, canonical, SiteName, [Image(image, 1200, 630, title)], "en_US",
                props.ogType.GetOr(Website)),
      Twitter(props.twitterCard.GetOr(SummaryLargeImage), title, description, [image],
              "@cd_entertainment", "@cd_entertainment"),
      Robots(!noIndex, !noIndex, !noIndex, !noIndex, -1, "large", -1),
      Verification(env.google, env.yandex, env.yahoo))
  }

  /**
   * The parts of the metadata that repeat each other agree: Open Graph and
   * Twitter carry the page's title, description and one image URL, the image's
   * alt text is the title, and the four robots flags all say `!noIndex`.
   */
  lemma MetadataAgrees(props: SeoProps, env: Env)
    ensures var m := GenerateMetadata(props, env);
      && m.openGraph.title == m.twitter.title == m.title
      && m.openGraph.description == m.twitter.description == m.description
      && |m.openGraph.images| == 1 && m.twitter.images == [m.openGraph.images[0].url]
      && m.openGraph.images[0].alt == m.title
      && m.openGraph.url == m.canonical
      && StartsWith(m.canonical, m.metadataBase)
      && (m.robots.index <==> !props.noIndex.GetOr(false))
      && m.robots.follow == m.robots.googleBotIndex == m.robots.googleBotFollow == m.robots.index
  {
    CanonicalExtendsBase(BaseUrl(env), props.canonicalUrl);
  }

  /** A page that passes nothing gets the site's own URLs, the default copy and is indexable. */
  lemma DefaultMetadata(env: Env)
    requires env.baseUrl.None?
    ensures var m := GenerateMetadata(SeoProps(None, None, None, None, None, None, None, None), env);
      && m.canonical == SiteUrl
      && m.openGraph.images[0].url == SiteUrl + DefaultOgImage
      && m.title == DefaultTitle
      && m.robots.index && m.robots.follow
      && m.twitter.card == SummaryLargeImage
  {
    DefaultImageOnSite();
  }

  /** The keywords string holds every keyword in order, separated by ", ". */
  lemma KeywordsInOrder(props: SeoProps, env: Env)
    ensures var ks := props.keywords.GetOr(DefaultKeywords);
      var m := GenerateMetadata(props, env);
      && (ks != [] ==> |m.keywords| == TotalLength(ks) + (|ks| - 1) * 2)
      && (|ks| >= 2 ==> StartsWith(m.keywords, ks[0] + ", "))
  {
    var ks := props.keywords.GetOr(DefaultKeywords);
    JoinLength(ks, ", ");
    if |ks| >= 2 {
      JoinStartsWithFirst(ks, ", ");
    }
  }

  datatype Service = Service(
    context: string,
    schemaType: string,
    name: string,
    description: string,
    url: string,
    providerName: string,
    providerUrl: string,
    geoRadius: string,
    priceCurrency: string,
    price: string,
    priceValidUntil: string)

  /** `serviceStructuredData` */
  function ServiceStructuredData(serviceName: string, serviceDescription: string, serviceUrl: string): Service {
    Service("https://schema.org", "Service", serviceName, serviceDescription, serviceUrl,
            SiteName, SiteUrl, "50", "USD", "500", "2025-12-31")
  }

  /** The three arguments are copied verbatim, so different services never share a record; the provider is always the site. */
  lemma ServiceCopiesArguments(n1: string, d1: string, u1: string, n2: string, d2: string, u2: string)
    ensures ServiceStructuredData(n1, d1, u1) == ServiceStructuredData(n2, d2, u2) <==> n1 == n2 && d1 == d2 && u1 == u2
    ensures var s := ServiceStructuredData(n1, d1, u1);
      s.name == n1 && s.description == d1 && s.url == u1 && s.schemaType == "Service"
      && s.providerName == SiteName && s.providerUrl == SiteUrl
  {
  }
}
