/**
 * The schema.org JSON-LD builders and the season-page metadata of
 * lib/metadata-utils.ts. Optional inputs are `None`; an optional field of a
 * result is present exactly when its input is truthy, as with `...(x && {...})`.
 */
module MetadataUtils {
  import opened Wrappers
  import opened Text
  import opened SeoConfig

  // ---- generateBreadcrumbs ----

  datatype Crumb = Crumb(name: string, url: string)

  /** One `ListItem` of the `BreadcrumbList`. */
  datatype ListItem = ListItem(position: int, name: string, item: string)

  /** The crumb at `index`, numbered from 1, with its URL read back after the site URL. */
  function CrumbItem(c: Crumb, index: nat): (r: ListItem)
    ensures r.position >= 1 && r.position - 1 == index
    ensures SiteUrl <= r.item && r.item[|SiteUrl|..] == c.url && r.name == c.name
  {
    ListItem(index + 1, c.name, SiteUrl + c.url)
  }

  /** `generateBreadcrumbs(items).itemListElement`. */
  function Breadcrumbs(items: seq<Crumb>): (r: seq<ListItem>)
    ensures |r| == |items|
    ensures forall i :: 0 <= i < |r| ==>
      r[i].position == i + 1 && r[i].name == items[i].name && r[i].item == SiteUrl + items[i].url
  {
    seq(|items|, i requires 0 <= i < |items| => CrumbItem(items[i], i))
  }

  /** The crumbs can be read back from the list: names, and URLs after the site URL. */
  function CrumbsOf(list: seq<ListItem>): seq<Crumb>
    requires forall i :: 0 <= i < |list| ==> |SiteUrl| <= |list[i].item|
  {
    seq(|list|, i requires 0 <= i < |list| => Crumb(list[i].name, list[i].item[|SiteUrl|..]))
  }

  lemma BreadcrumbsRoundTrip(items: seq<Crumb>)
    ensures CrumbsOf(Breadcrumbs(items)) == items
  {
    var r := Breadcrumbs(items);
    forall i | 0 <= i < |items| ensures CrumbsOf(r)[i] == items[i] {
      assert r[i].item[|SiteUrl|..] == items[i].url;
    }
  }

  /** A trail extended by more crumbs lists the old items unchanged, the new ones numbered on. */
  lemma BreadcrumbsAppend(a: seq<Crumb>, b: seq<Crumb>)
    ensures Breadcrumbs(a + b)[..|a|] == Breadcrumbs(a)
    ensures forall j :: 0 <= j < |b| ==> Breadcrumbs(a + b)[|a| + j] == CrumbItem(b[j], |a| + j)
  {
    var r := Breadcrumbs(a + b);
    forall j | 0 <= j < |b| ensures r[|a| + j] == CrumbItem(b[j], |a| + j) {
      assert (a + b)[|a| + j] == b[j];
    }
  }

  // ---- generateFAQSchema ----

  datatype Faq = Faq(question: string, answer: string)

  /** One `Question` with its `acceptedAnswer`. */
  datatype Question = Question(name: string, acceptedAnswer: string)

  /** `generateFAQSchema(faqs).mainEntity`. */
  function FaqSchema(faqs: seq<Faq>): (r: seq<Question>)
    ensures |r| == |faqs|
    ensures forall i :: 0 <= i < |r| ==> r[i].name == faqs[i].question && r[i].acceptedAnswer == faqs[i].answer
  {
    seq(|faqs|, i requires 0 <= i < |faqs| => Question(faqs[i].question, faqs[i].answer))
  }

  /** No question or answer is lost: the FAQs can be read back from the schema. */
  lemma FaqSchemaRoundTrip(faqs: seq<Faq>)
    ensures seq(|faqs|, i requires 0 <= i < |faqs| => Faq(FaqSchema(faqs)[i].name, FaqSchema(faqs)[i].acceptedAnswer)) == faqs
  {
  }

  // ---- generatePersonSchema ----

  const SchoolName: string := "Waukee Northwest High School"

  datatype PersonInput = PersonInput(name: string, role: string, image: Option<string>,
                                     bio: Option<string>, graduationYear: Option<string>)

  /** The `Person` object; `memberOf` is always the team. */
  datatype Person = Person(name: string, jobTitle: string, memberOfName: string, memberOfUrl: string,
                           image: Option<string>, description: Option<string>, alumniOf: Option<string>)

  function PersonSchema(p: PersonInput): (r: Person)
    ensures r.name == p.name && r.jobTitle == p.role
    ensures r.memberOfName == TeamFullName && r.memberOfUrl == SiteUrl
    ensures r.image.Some? <==> Truthy(p.image)
    ensures r.image.Some? ==> r.image.value == SiteUrl + p.image.value
    ensures r.description.Some? <==> Truthy(p.bio)
    ensures r.description.Some? ==> r.description == p.bio
    ensures r.alumniOf.Some? <==> Truthy(p.graduationYear)
    ensures r.alumniOf.Some? ==> r.alumniOf.value == SchoolName
  {
    Person(p.name, p.role, TeamFullName, SiteUrl,
      if Truthy(p.image) then Some(SiteUrl + p.image.value) else None,
      if Truthy(p.bio) then p.bio else None,
      if Truthy(p.graduationYear) then Some(SchoolName) else None)
  }

  // ---- generateSportsEventSchema ----

  const TeamState: string := "Iowa"
  const TeamCountry: string := "United States"

  datatype EventInput = EventInput(name: string, startDate: string, endDate: Option<string>,
                                   location: string, description: Option<string>, url: Option<string>)

  /** The `SportsEvent`: the place's region and country are the team's; FIRST organises. */
  datatype SportsEvent = SportsEvent(name: string, startDate: string, endDate: Option<string>,
                                     placeName: string, region: string, country: string,
                                     description: Option<string>, url: Option<string>,
                                     organizer: string, competitor: string)

  /** `...(x && { field: x })` for an optional string. */
  function IfTruthy(x: Option<string>): (r: Option<string>)
    ensures r.Some? <==> Truthy(x)
    ensures r.Some? ==> r == x
  {
    if Truthy(x) then x else None
  }

  function SportsEventSchema(e: EventInput): (r: SportsEvent)
    ensures r.name == e.name && r.startDate == e.startDate && r.placeName == e.location
    ensures r.endDate.Some? <==> Truthy(e.endDate)
    ensures r.description.Some? <==> Truthy(e.description)
    ensures r.url.Some? <==> Truthy(e.url)
    ensures r.endDate.Some? ==> r.endDate == e.endDate
    ensures r.description.Some? ==> r.description == e.description
    ensures r.url.Some? ==> r.url == e.url
    ensures r.region == TeamState && r.country == TeamCountry
    ensures r.organizer == "FIRST" && r.competitor == TeamFullName
  {
    SportsEvent(e.name, e.startDate, IfTruthy(e.endDate), e.location, TeamState, TeamCountry,
      IfTruthy(e.description), IfTruthy(e.url), "FIRST", TeamFullName)
  }

  // ---- generateSportsTeamSchema ----

  datatype TeamAchievement = TeamAchievement(name: string, date: string)

  datatype TeamOptions = TeamOptions(currentRanking: Option<int>, memberCount: Option<int>,
                                     achievements: Option<seq<TeamAchievement>>)

  datatype Rating = Rating(ratingValue: int, bestRating: int, worstRating: int)

  /** The optional parts of the `SportsTeam` object; the rest is constant. */
  datatype SportsTeam = SportsTeam(name: string, logo: string, aggregateRating: Option<Rating>,
                                   numberOfEmployees: Option<int>, award: Option<seq<string>>)

  /** A number JavaScript treats as true: present and non-zero. */
  predicate TruthyNumber(n: Option<int>) {
    n.Some? && n.value != 0
  }

  function AchievementNames(a: seq<TeamAchievement>): (r: seq<string>)
    ensures |r| == |a| && forall i :: 0 <= i < |a| ==> r[i] == a[i].name
  {
    seq(|a|, i requires 0 <= i < |a| => a[i].name)
  }

  function SportsTeamSchema(options: Option<TeamOptions>): (r: SportsTeam)
    ensures r.name == TeamFullName && r.logo == SiteUrl + LogoUrl
    ensures r.aggregateRating.Some? <==> options.Some? && TruthyNumber(options.value.currentRanking)
    ensures r.aggregateRating.Some? ==>
      r.aggregateRating.value == Rating(options.value.currentRanking.value, 1, 1000)
    ensures r.numberOfEmployees.Some? <==> options.Some? && TruthyNumber(options.value.memberCount)
    ensures r.numberOfEmployees.Some? ==> r.numberOfEmployees == options.value.memberCount
    ensures r.award.Some? <==>
      options.Some? && options.value.achievements.Some? && |options.value.achievements.value| > 0
    ensures r.award.Some? ==> (|r.award.value| == |options.value.achievements.value|
      && forall i :: 0 <= i < |r.award.value| ==> r.award.value[i] == options.value.achievements.value[i].name)
  {
    match options
    case None => SportsTeam(TeamFullName, SiteUrl + LogoUrl, None, None, None)
    case Some(o) =>
      SportsTeam(TeamFullName, SiteUrl + LogoUrl,
        if TruthyNumber(o.currentRanking) then Some(Rating(o.currentRanking.value, 1, 1000)) else None,
        if TruthyNumber(o.memberCount) then o.memberCount else None,
        if o.achievements.Some? && |o.achievements.value| > 0 then Some(AchievementNames(o.achievements.value)) else None)
  }

  /** A ranking of 0 is treated as no ranking at all: no rating is published. */
  lemma ZeroRankingHasNoRating(memberCount: Option<int>, achievements: Option<seq<TeamAchievement>>)
    ensures SportsTeamSchema(Some(TeamOptions(Some(0), memberCount, achievements))).aggregateRating.None?
    ensures SportsTeamSchema(Some(TeamOptions(Some(0), memberCount, achievements)))
         == SportsTeamSchema(Some(TeamOptions(None, memberCount, achievements)))
  {
  }

  // ---- generateArticleSchema ----

  datatype ArticleInput = ArticleInput(title: string, description: string, publishDate: string,
                                       modifiedDate: Option<string>, url: string,
                                       image: Option<string>, authorName: Option<string>)

  datatype Article = Article(headline: string, description: string, datePublished: string,
                             dateModified: string, url: string, image: Option<string>,
                             author: string, publisher: string, publisherLogo: string)

  function ArticleSchema(a: ArticleInput): (r: Article)
    ensures r.headline == a.title && r.description == a.description && r.datePublished == a.publishDate
    ensures r.dateModified == if Truthy(a.modifiedDate) then a.modifiedDate.value else a.publishDate
    ensures r.url == SiteUrl + a.url
    ensures r.image.Some? <==> Truthy(a.image)
    ensures r.image.Some? ==> r.image.value == SiteUrl + a.image.value
    ensures r.author == if Truthy(a.authorName) then a.authorName.value else TeamFullName
    ensures r.publisher == TeamFullName && r.publisherLogo == SiteUrl + LogoUrl
  {
    Article(a.title, a.description, a.publishDate,
      if Truthy(a.modifiedDate) then a.modifiedDate.value else a.publishDate,
      SiteUrl + a.url,
      if Truthy(a.image) then Some(SiteUrl + a.image.value) else None,
      if Truthy(a.authorName) then a.authorName.value else TeamFullName,
      TeamFullName, SiteUrl + LogoUrl)
  }

  /** An article never modified reads as modified when published. */
  lemma UnmodifiedArticle(a: ArticleInput)
    requires !Truthy(a.modifiedDate)
    ensures ArticleSchema(a).dateModified == ArticleSchema(a).datePublished
  {
  }

  // ---- generateSeasonPageMetadata ----

  datatype SeasonInput = SeasonInput(name: string, year: string, description: string, slug: string)

  /** The path of a season's page. */
  function SeasonPath(slug: string): string {
    "/seasons/" + slug
  }

  function SeasonPageMetadata(s: SeasonInput): (m: PageMeta)
    ensures m.title == s.name + " " + s.year
    ensures m.ogTitle == m.twitterTitle == m.title + " | " + SiteName
    ensures m.canonical == m.ogUrl == SiteUrl + SeasonPath(s.slug)
    ensures m.ogDescription == m.twitterDescription == s.description
    ensures |m.keywords| == |Keywords| + 5 && m.keywords[..|Keywords|] == Keywords
    ensures m.keywords[|Keywords|..] == [s.name, "FTC " + s.year, "robot design", "competition season", "game strategy"]
    ensures m.ogType == "article" && m.ogImages == [OgImage] && m.twitterImages == [OgImage.url]
  {
    var title := s.name + " " + s.year;
    var url := SiteUrl + SeasonPath(s.slug);
    var keywords := Keywords + [s.name, "FTC " + s.year, "robot design", "competition season", "game strategy"];
    assert keywords[..|Keywords|] == Keywords;
    PageMeta(title,
      s.description + " Follow " + TeamFullName + "'s journey through the " + s.year + " FTC season.",
      keywords,
      title + " | " + SiteName, s.description, url, SiteName, [OgImage], Locale, "article",
      TwitterCard, title + " | " + SiteName, s.description, TwitterHandle, [OgImage.url],
      url)
  }

  /** Season pages with different slugs have different canonical URLs. */
  lemma SeasonCanonicalInjective(s: SeasonInput, t: SeasonInput)
    requires s.slug != t.slug
    ensures SeasonPageMetadata(s).canonical != SeasonPageMetadata(t).canonical
  {
    var p := SiteUrl + "/seasons/";
    assert SiteUrl + SeasonPath(s.slug) == p + s.slug;
    assert SiteUrl + SeasonPath(t.slug) == p + t.slug;
    assert (p + s.slug)[|p|..] == s.slug;
    assert (p + t.slug)[|p|..] == t.slug;
  }
}
