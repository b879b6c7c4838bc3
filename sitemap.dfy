/**
 * The route list of app/sitemap.ts: three fixed pages, then one page per
 * season. `new Date()` is the parameter `now`; priorities are in tenths.
 */
module Sitemap {
  import opened Text
  import SeoConfig
  import MetadataUtils

  /** The base URL the sitemap spells out for itself. */
  const BaseUrl: string := "https://ragnarokftc.com"

  datatype Frequency = Daily | Weekly | Monthly

  datatype Route = Route(url: string, lastModified: int, changeFrequency: Frequency, priorityTenths: int)

  datatype Season = Season(slug: string)

  function StaticRoutes(now: int): seq<Route> {
    [Route(BaseUrl, now, Weekly, 10),
     Route(BaseUrl + "/members", now, Monthly, 8),
     Route(BaseUrl + "/results", now, Daily, 9)]
  }

  function SeasonRoute(s: Season, now: int): Route {
    Route(BaseUrl + "/seasons/" + s.slug, now, Monthly, 7)
  }

  /** `sitemap()`. */
  function Routes(seasons: seq<Season>, now: int): (r: seq<Route>)
    ensures |r| == 3 + |seasons|
    ensures r[0].url == BaseUrl && r[0].changeFrequency == Weekly && r[0].priorityTenths == 10
    ensures r[1].url == BaseUrl + "/members" && r[1].changeFrequency == Monthly && r[1].priorityTenths == 8
    ensures r[2].url == BaseUrl + "/results" && r[2].changeFrequency == Daily && r[2].priorityTenths == 9
    ensures forall i :: 0 <= i < |seasons| ==>
      r[3 + i].url == BaseUrl + "/seasons/" + seasons[i].slug
      && r[3 + i].changeFrequency == Monthly && r[3 + i].priorityTenths == 7
    ensures forall i :: 0 <= i < |r| ==> r[i].lastModified == now
  {
    StaticRoutes(now) + seq(|seasons|, i requires 0 <= i < |seasons| => SeasonRoute(seasons[i], now))
  }

  /** With distinct slugs, no URL appears twice in the sitemap. */
  lemma RoutesDistinct(seasons: seq<Season>, now: int)
    requires forall i, j :: 0 <= i < j < |seasons| ==> seasons[i].slug != seasons[j].slug
    ensures forall i, j :: 0 <= i < j < |Routes(seasons, now)| ==> Routes(seasons, now)[i].url != Routes(seasons, now)[j].url
  {
    var r := Routes(seasons, now);
    var p := BaseUrl + "/seasons/";
    forall i, j | 0 <= i < j < |r| ensures r[i].url != r[j].url {
      if j >= 3 {
        var sj := seasons[j - 3].slug;
        assert r[j].url == p + sj;
        assert r[j].url[..|p|] == p;
        if i >= 3 {
          var si := seasons[i - 3].slug;
          assert r[i].url == p + si;
          assert r[i].url[|p|..] == si;
          assert r[j].url[|p|..] == sj;
        } else if i == 0 {
          assert |r[i].url| < |p|;
        } else {
          assert r[i].url[|BaseUrl| + 1] != p[|BaseUrl| + 1];
        }
      } else if i == 1 {
        assert r[i].url[|BaseUrl| + 1] != r[j].url[|BaseUrl| + 1];
      } else {
        assert |r[i].url| < |r[j].url|;
      }
    }
  }

  /**
   * A season's sitemap URL is its page's canonical URL, and the site URL
   * followed by the path an achievement card links to.
   */
  lemma SeasonRouteIsCanonical(s: MetadataUtils.SeasonInput, now: int)
    ensures SeasonRoute(Season(s.slug), now).url == MetadataUtils.SeasonPageMetadata(s).canonical
    ensures SeasonRoute(Season(s.slug), now).url == SeoConfig.SiteUrl + MetadataUtils.SeasonPath(s.slug)
  {
    assert BaseUrl + "/seasons/" + s.slug == SeoConfig.SiteUrl + ("/seasons/" + s.slug);
  }
}
