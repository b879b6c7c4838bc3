/**
 * The resource cards of app/resources/page.tsx: which links leave the site,
 * which are e-mail links, and what each card therefore renders (new tab,
 * `rel`, arrow or e-mail icon, category colours, icon block), plus the grid's
 * narrow layout for a single card.
 */
module Resources {
  import opened Wrappers
  import opened Text

  datatype Category = Tools | Code | Official | Contact

  /** `Resource`: `icon` is optional. */
  datatype Resource = Resource(id: string, category: Category, title: string, description: string,
                               url: string, icon: Option<string>)

  const OwnDomain: string := "ragnarokftc.com"

  /** `url.startsWith("http") && !url.includes("ragnarokftc.com")`. */
  function IsExternal(url: string): (b: bool)
    ensures b ==> |url| >= 4 && url[..4] == "http"
    ensures Contains(url, OwnDomain) ==> !b
    ensures |url| >= 4 && url[..4] == "http" && !Contains(url, OwnDomain) ==> b
  {
    "http" <= url && !Contains(url, OwnDomain)
  }

  /** `url.startsWith("mailto:")`. */
  function IsEmail(url: string): (b: bool)
    ensures b <==> |url| >= 7 && url[..7] == "mailto:"
  {
    "mailto:" <= url
  }

  /** `categoryColors[category]`. */
  function CategoryColors(c: Category): string {
    match c
    case Tools => "from-blue-500/20 to-cyan-500/20 border-blue-500/30"
    case Code => "from-purple-500/20 to-pink-500/20 border-purple-500/30"
    case Official => "from-orange-500/20 to-red-500/20 border-orange-500/30"
    case Contact => "from-elite-gold/20 to-yellow-500/20 border-elite-gold/30"
  }

  /** The names `iconMap` has an icon component for. */
  const IconNames: set<string> := {"Bot", "Zap", "Code", "BookOpen", "Mail"}

  const CardClass: string := "group card card-hover glow-border bg-gradient-to-br "

  /** What one card renders. */
  datatype CardView = CardView(
    href: string,
    target: Option<string>,
    rel: Option<string>,
    className: string,
    icon: Option<string>,
    arrow: bool,
    emailIcon: bool)

  /** The body of `resources.map(...)` for one resource. */
  function Card(r: Resource): (v: CardView)
    ensures v.href == r.url
    ensures v.target.Some? <==> IsExternal(r.url) && !IsEmail(r.url)
    ensures v.target.Some? ==> v.target.value == "_blank"
    ensures v.rel.Some? <==> v.target.Some?
    ensures v.rel.Some? ==> v.rel.value == "noopener noreferrer"
    ensures v.arrow <==> IsExternal(r.url) && !IsEmail(r.url)
    ensures v.emailIcon <==> IsEmail(r.url)
    ensures v.icon.Some? <==> Truthy(r.icon) && r.icon.value in IconNames
    ensures v.icon.Some? ==> v.icon == r.icon
    ensures v.className == CardClass + CategoryColors(r.category)
  {
    var external := IsExternal(r.url);
    var email := IsEmail(r.url);
    var newTab := external && !email;
    CardView(
      r.url,
      if newTab then Some("_blank") else None,
      if newTab then Some("noopener noreferrer") else None,
      CardClass + CategoryColors(r.category),
      if Truthy(r.icon) && r.icon.value in IconNames then r.icon else None,
      newTab,
      email)
  }

  /** An e-mail link never counts as external: "mailto:" does not start with "http". */
  lemma EmailNeverExternal(url: string)
    ensures IsEmail(url) ==> !IsExternal(url)
  {
    if IsEmail(url) {
      assert url[0] == 'm';
    }
  }

  /**
   * So the `!isEmail` test is redundant: a card opens in a new tab, and shows
   * the arrow, exactly when its link is external; it never shows both icons.
   */
  lemma NewTabExactlyWhenExternal(r: Resource)
    ensures Card(r).target.Some? <==> IsExternal(r.url)
    ensures Card(r).arrow <==> IsExternal(r.url)
    ensures !(Card(r).arrow && Card(r).emailIcon)
  {
    EmailNeverExternal(r.url);
  }

  /** A link anywhere on the team's own domain stays in the same tab. */
  lemma OwnSiteStaysInTab(r: Resource, i: nat)
    requires i + |OwnDomain| <= |r.url| && r.url[i..i + |OwnDomain|] == OwnDomain
    ensures Card(r).target.None? && Card(r).rel.None? && !Card(r).arrow
  {
    ContainsAt(r.url, OwnDomain, i);
  }

  /** The four class lists have four different lengths. */
  lemma ToolsCodeLengths()
    ensures |CategoryColors(Tools)| == 50 && |CategoryColors(Code)| == 54
  {
  }

  lemma OfficialContactLengths()
    ensures |CategoryColors(Official)| == 53 && |CategoryColors(Contact)| == 56
  {
  }

  /** Each category has its own colours. */
  lemma CategoryColorsDistinct(a: Category, b: Category)
    ensures CategoryColors(a) == CategoryColors(b) <==> a == b
  {
    if a != b {
      ToolsCodeLengths();
      OfficialContactLengths();
      assert |CategoryColors(a)| != |CategoryColors(b)|;
    }
  }

  /** The grid: cards in list order, narrowed when there is exactly one resource. */
  datatype GridView = GridView(className: string, cards: seq<CardView>)

  const GridClass: string := "grid grid-cols-1 md:grid-cols-2 gap-6 "
  const NarrowClass: string := "max-w-2xl mx-auto"

  function Grid(resources: seq<Resource>): (g: GridView)
    ensures |g.cards| == |resources|
    ensures forall i :: 0 <= i < |resources| ==> g.cards[i] == Card(resources[i])
    ensures g.className == GridClass + NarrowClass <==> |resources| == 1
    ensures g.className == GridClass <==> |resources| != 1
  {
    var cards := seq(|resources|, i requires 0 <= i < |resources| => Card(resources[i]));
    GridView(GridClass + (if |resources| == 1 then NarrowClass else ""), cards)
  }
}
