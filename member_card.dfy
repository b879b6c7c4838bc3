/**
 * The member card of components/MemberCard.tsx: the years a member can be
 * viewed in, the role shown for the selected year, and which optional parts
 * of the card are rendered.
 */
module MemberCard {
  import opened Wrappers
  import opened Text
  import opened Sequences

  /** The season the site treats as current. */
  const CurrentYear: int := 2026

  datatype HistoricalRole = HistoricalRole(year: int, role: string)

  datatype SocialLinks = SocialLinks(email: Option<string>, github: Option<string>)

  /** The parts of `Member` of lib/types.ts the card reads; absent flags are false. */
  datatype Member = Member(
    name: string, role: string, years: seq<int>, isAlumni: bool,
    historicalRoles: Option<seq<HistoricalRole>>, socialLinks: Option<SocialLinks>)

  /** `historicalRoles.find(r => r.year === year)`: the index of the first entry for `year`. */
  function FindRole(roles: seq<HistoricalRole>, year: int): (r: Option<nat>)
    ensures r.Some? ==> r.value < |roles| && roles[r.value].year == year
    ensures r.Some? ==> forall j :: 0 <= j < r.value ==> roles[j].year != year
    ensures r.None? ==> forall j :: 0 <= j < |roles| ==> roles[j].year != year
  {
    FindFirst(roles, (h: HistoricalRole) => h.year == year)
  }

  /** `getRole()` for the selected year. */
  function RoleFor(m: Member, year: int): (role: string)
    ensures year == CurrentYear ==> role == m.role
    ensures role == m.role || (m.historicalRoles.Some? && exists j :: (0 <= j < |m.historicalRoles.value|
      && m.historicalRoles.value[j].year == year && m.historicalRoles.value[j].role == role && role != ""))
  {
    if year == CurrentYear then m.role
    else if m.historicalRoles.None? then m.role
    else match FindRole(m.historicalRoles.value, year)
      case None => m.role
      case Some(k) =>
        var r := m.historicalRoles.value[k].role;
        if r != "" then r else m.role
  }

  /**
   * For a past year, the role shown is that of the first historical entry for
   * the year when it is non-empty, and the current role otherwise.
   */
  lemma PastRoleShown(m: Member, year: int, k: nat)
    requires year != CurrentYear && m.historicalRoles.Some?
    requires k < |m.historicalRoles.value| && m.historicalRoles.value[k].year == year
    requires forall j :: 0 <= j < k ==> m.historicalRoles.value[j].year != year
    ensures m.historicalRoles.value[k].role != "" ==> RoleFor(m, year) == m.historicalRoles.value[k].role
    ensures m.historicalRoles.value[k].role == "" ==> RoleFor(m, year) == m.role
  {
    assert FindRole(m.historicalRoles.value, year) == Some(k);
  }

  /** `years`: the member's years, then the current year unless the member is an alumnus. */
  function YearsOf(m: Member): (ys: seq<int>)
    ensures |ys| == |m.years| + (if m.isAlumni then 0 else 1)
    ensures ys[..|m.years|] == m.years
    ensures !m.isAlumni ==> ys[|ys| - 1] == CurrentYear
  {
    m.years + (if m.isAlumni then [] else [CurrentYear])
  }

  /**
   * The year selector is rendered when there is more than one year to pick: a
   * current member shows it exactly when they have a listed year, an alumnus
   * exactly when they have two.
   */
  function ShowsYearSelector(m: Member): (b: bool)
    ensures !m.isAlumni ==> (b <==> |m.years| >= 1)
    ensures m.isAlumni ==> (b <==> |m.years| >= 2)
  {
    |YearsOf(m)| > 1
  }

  /** The social block is rendered when there is an email or a GitHub link (an empty one is falsy). */
  function ShowsSocialLinks(m: Member): (b: bool)
    ensures m.socialLinks.None? ==> !b
    ensures m.socialLinks.Some? && m.socialLinks.value.email.Some? && m.socialLinks.value.email.value != "" ==> b
    ensures m.socialLinks.Some? && m.socialLinks.value.github.Some? && m.socialLinks.value.github.value != "" ==> b
    ensures m.socialLinks.Some? && !Truthy(m.socialLinks.value.email) && !Truthy(m.socialLinks.value.github) ==> !b
  {
    m.socialLinks.Some? && (Truthy(m.socialLinks.value.email) || Truthy(m.socialLinks.value.github))
  }

  /** A link inside the social block. */
  datatype Anchor = EmailLink(href: string) | GithubLink(href: string)

  /** The anchors the social block holds: the e-mail link, then the GitHub link, each when truthy. */
  function SocialAnchors(s: SocialLinks): (links: seq<Anchor>)
    ensures |links| == (if Truthy(s.email) then 1 else 0) + (if Truthy(s.github) then 1 else 0)
    ensures Truthy(s.email) ==> links[0] == EmailLink("mailto:" + s.email.value)
    ensures Truthy(s.github) ==> links[|links| - 1] == GithubLink("https://github.com/" + s.github.value)
  {
    (if Truthy(s.email) then [EmailLink("mailto:" + s.email.value)] else [])
    + (if Truthy(s.github) then [GithubLink("https://github.com/" + s.github.value)] else [])
  }

  /** The social block is rendered exactly when it would hold at least one link, so it is never empty. */
  lemma SocialBlockNeverEmpty(m: Member)
    ensures ShowsSocialLinks(m) <==> m.socialLinks.Some? && SocialAnchors(m.socialLinks.value) != []
  {
  }

  /** The card's one piece of state. */
  class Card {
    const member: Member
    var selectedYear: int

    constructor (member: Member)
      ensures this.member == member && selectedYear == CurrentYear
    {
      this.member := member;
      selectedYear := CurrentYear;
    }

    /** Clicking one of the year buttons. */
    method SelectYear(year: int)
      requires year in YearsOf(member)
      modifies this
      ensures selectedYear == year
    {
      selectedYear := year;
    }

    /** The role line the card shows. */
    function Role(): (role: string)
      reads this
      ensures selectedYear == CurrentYear ==> role == member.role
    {
      RoleFor(member, selectedYear)
    }
  }

  /** A fresh card shows the current role; selecting a past year with a role shows that role. */
  method ViewPastRole(m: Member, year: int, k: nat) returns (before: string, after: string)
    requires year in YearsOf(m) && year != CurrentYear && m.historicalRoles.Some?
    requires k < |m.historicalRoles.value| && m.historicalRoles.value[k].year == year
    requires forall j :: 0 <= j < k ==> m.historicalRoles.value[j].year != year
    requires m.historicalRoles.value[k].role != ""
    ensures before == m.role && after == m.historicalRoles.value[k].role
  {
    var card := new Card(m);
    before := card.Role();
    card.SelectYear(year);
    after := card.Role();
    PastRoleShown(m, year, k);
  }
}
