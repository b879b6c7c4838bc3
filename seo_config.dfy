/**
 * The site-wide SEO settings of lib/seo-config.ts and the page metadata built
 * from them by `generatePageMetadata`.
 */
module SeoConfig {
  import opened Wrappers
  import opened Text

  const SiteUrl: string := "https://ragnarokftc.com"
  const SiteName: string := "24358 Ragnarok"
  const TeamFullName: string := "FTC Team 24358 Ragnarok"
  const TwitterHandle: string := "@ragnarok_ftc24358"
  const Locale: string := "en_US"
  const TwitterCard: string := "summary_large_image"

  /** The site keywords, in their listed order. */
  const Keywords: seq<string> := [
    "FTC Team 24358", "Ragnarok Robotics", "24358 Ragnarok", "Ben Boonstra", "bboonstra",
    "FIRST Tech Challenge", "FTC Robotics", "FTC Competition", "Robotics Competition",
    "Waukee Robotics", "Iowa Robotics", "Waukee Northwest Robotics", "Iowa FTC Team", "Des Moines Robotics",
    "STEM Education", "High School Robotics", "Robotics Team", "Engineering Team", "Student Engineers",
    "Robotics Club",
    "Autonomous Programming", "TeleOp", "Robot Design", "CAD Design", "Engineering Notebook"]

  datatype Image = Image(url: string, width: int, height: int, alt: string)

  const OgImage: Image := Image("/images/og-image.png", 1200, 630, "24358 Ragnarok - Waukee Iowa FTC Robotics")
  const LogoUrl: string := "/images/logo.svg"

  /** The Next.js `Metadata` object the generators return (the fields they set). */
  datatype PageMeta = PageMeta(
    title: string, description: string, keywords: seq<string>,
    ogTitle: string, ogDescription: string, ogUrl: string, ogSiteName: string,
    ogImages: seq<Image>, ogLocale: string, ogType: string,
    twitterCard: string, twitterTitle: string, twitterDescription: string,
    twitterCreator: string, twitterImages: seq<string>,
    canonical: string)

  /**
   * `generatePageMetadata({title, description, path, keywords, image})`;
   * absent arguments are `None`.
   */
  function PageMetadata(title: string, description: string, path: Option<string>,
                        keywords: Option<seq<string>>, image: Option<Image>): (m: PageMeta)
    ensures m.canonical == m.ogUrl == SiteUrl + path.GetOr("")
    ensures m.keywords == Keywords + keywords.GetOr([])
    ensures m.ogImages == [image.GetOr(OgImage)] && m.twitterImages == [image.GetOr(OgImage).url]
    ensures m.title == m.ogTitle == m.twitterTitle == title
    ensures m.description == m.ogDescription == m.twitterDescription == description
    ensures m.ogSiteName == SiteName && m.twitterCreator == TwitterHandle && m.ogType == "website"
  {
    var url := SiteUrl + path.GetOr("");
    var img := image.GetOr(OgImage);
    PageMeta(title, description, Keywords + keywords.GetOr([]),
      title, description, url, SiteName, [img], Locale, "website",
      TwitterCard, title, description, TwitterHandle, [img.url],
      url)
  }

  /** The page's path can be read back from its canonical URL. */
  lemma CanonicalNamesPath(title: string, description: string, path: string,
                           keywords: Option<seq<string>>, image: Option<Image>)
    ensures var c := PageMetadata(title, description, Some(path), keywords, image).canonical;
      SiteUrl <= c && c[|SiteUrl|..] == path
  {
    var c := SiteUrl + path;
    assert c[..|SiteUrl|] == SiteUrl;
  }

  /** Pages on different paths have different canonical URLs. */
  lemma CanonicalInjective(t1: string, d1: string, p1: Option<string>, k1: Option<seq<string>>, i1: Option<Image>,
                           t2: string, d2: string, p2: Option<string>, k2: Option<seq<string>>, i2: Option<Image>)
    requires p1.GetOr("") != p2.GetOr("")
    ensures PageMetadata(t1, d1, p1, k1, i1).canonical != PageMetadata(t2, d2, p2, k2, i2).canonical
  {
    var a, b := SiteUrl + p1.GetOr(""), SiteUrl + p2.GetOr("");
    assert a[|SiteUrl|..] == p1.GetOr("");
    assert b[|SiteUrl|..] == p2.GetOr("");
  }

  /** The site keywords always come first, and none is lost. */
  lemma KeywordsKeepSiteKeywords(title: string, description: string, path: Option<string>,
                                 keywords: seq<string>, image: Option<Image>)
    ensures var k := PageMetadata(title, description, path, Some(keywords), image).keywords;
      k[..|Keywords|] == Keywords && k[|Keywords|..] == keywords
      && multiset(k) == multiset(Keywords) + multiset(keywords)
  {
    var k := Keywords + keywords;
    assert k[..|Keywords|] == Keywords;
    assert k[|Keywords|..] == keywords;
  }
}
