/**
 * The achievement card of components/AchievementCard.tsx: the trophy colour
 * and border for the icon, and the season page the card links to.
 */
module AchievementCard {
  import opened Wrappers
  import opened Text
  import opened Sequences

  datatype Achievement = Achievement(title: string, award: string, place: string, icon: string, year: int)

  /** The parts of `Season` the card reads: `year` is a range such as "2024-2025". */
  datatype Season = Season(year: string, slug: string)

  /** `getTrophyColor()`: gold and silver by name, anything else bronze. */
  function TrophyColor(icon: string): (c: string)
    ensures icon == "gold" ==> c == "trophy-gold"
    ensures icon == "silver" ==> c == "trophy-silver"
    ensures icon != "gold" && icon != "silver" ==> c == "trophy-bronze"
  {
    if icon == "gold" then "trophy-gold"
    else if icon == "silver" then "trophy-silver"
    else "trophy-bronze"
  }

  /** `getBorderColor()`. */
  function BorderColor(icon: string): (c: string)
    ensures icon == "gold" ==> c == "border-elite-gold/40"
    ensures icon == "silver" ==> c == "border-gray-400/40"
    ensures icon != "gold" && icon != "silver" ==> c == "border-trophy-bronze/40"
  {
    if icon == "gold" then "border-elite-gold/40"
    else if icon == "silver" then "border-gray-400/40"
    else "border-trophy-bronze/40"
  }

  /** The trophy and the border always show the same medal. */
  lemma ColoursAgree(icon: string, other: string)
    ensures TrophyColor(icon) == TrophyColor(other) <==> BorderColor(icon) == BorderColor(other)
  {
  }

  /**
   * The two ends of a range such as "2024-2025", when both parse; a missing
   * second field is `parseInt(undefined)`, NaN.
   */
  function RangeEnds(range: string): (r: Option<(int, int)>)
    ensures '-' !in range ==> r.None?
    ensures var fields := Split(range, '-');
      r.Some? <==> |fields| >= 2 && ParseInt(fields[0]).Some? && ParseInt(fields[1]).Some?
    ensures var fields := Split(range, '-');
      r.Some? ==> |fields| >= 2 && r.value == (ParseInt(fields[0]).value, ParseInt(fields[1]).value)
  {
    var fields := Split(range, '-');
    var start := ParseInt(fields[0]);
    var end := if |fields| >= 2 then ParseInt(fields[1]) else None;
    var ends := if start.Some? && end.Some? then Some((start.value, end.value)) else None;
    if '-' in range then ends
    else SplitNoSep(range, '-'); ends
  }

  /** The `find` predicate: both ends parse and the year lies between them (NaN compares false). */
  function InSeason(year: int, range: string): (b: bool)
    ensures '-' !in range ==> !b
    ensures RangeEnds(range).None? ==> !b
    ensures RangeEnds(range).Some? ==> (b <==> RangeEnds(range).value.0 <= year <= RangeEnds(range).value.1)
  {
    var ends := RangeEnds(range);
    ends.Some? && ends.value.0 <= year <= ends.value.1
  }

  /** A range written "start-end" has exactly those two ends. */
  lemma RangeEndsOf(start: nat, end: nat)
    ensures RangeEnds(IntToString(start) + "-" + IntToString(end)) == Some((start, end))
  {
    var a, b := IntToString(start), IntToString(end);
    SplitNoSep(a, '-');
    SplitNoSep(b, '-');
    SplitAppend(a, '-', b);
    assert a + "-" + b == a + ['-'] + b;
    assert Split(a + "-" + b, '-') == [a, b];
    ParseIntOfIntToString(start);
    ParseIntOfIntToString(end);
  }

  /** A range whose start is not a number, such as "abc-2025", contains no year. */
  lemma {:induction false} NonNumericStartMatchesNoYear(year: int)
    ensures !InSeason(year, "abc-2025")
  {
    var a, b := "abc", "2025";
    SplitNoSep(a, '-');
    SplitNoSep(b, '-');
    SplitAppend(a, '-', b);
    assert a + ['-'] + b == "abc-2025";
    TrimStartNoSpace(a);
    assert DigitPrefix(a) == [];
    assert ParseInt(a).None?;
  }

  /** A range with nothing after the dash, such as "2024-", contains no year. */
  lemma {:induction false} MissingEndMatchesNoYear(year: int)
    ensures !InSeason(year, "2024-")
  {
    var a, b := "2024", "";
    SplitNoSep(a, '-');
    SplitNoSep(b, '-');
    SplitAppend(a, '-', b);
    assert a + ['-'] + b == "2024-";
    assert ParseInt(b).None?;
  }

  /** For a range written "start-end", a year is in the season exactly when it lies in the range. */
  lemma InSeasonRange(year: int, start: nat, end: nat)
    ensures InSeason(year, IntToString(start) + "-" + IntToString(end)) <==> start <= year <= end
  {
    RangeEndsOf(start, end);
  }

  /** `seasons.find(...)`: the index of the first season containing the year. */
  function FindSeason(year: int, seasons: seq<Season>): (r: Option<nat>)
    ensures r.Some? ==> r.value < |seasons| && InSeason(year, seasons[r.value].year)
    ensures r.Some? ==> forall j :: 0 <= j < r.value ==> !InSeason(year, seasons[j].year)
    ensures r.None? ==> forall j :: 0 <= j < |seasons| ==> !InSeason(year, seasons[j].year)
  {
    FindFirst(seasons, (s: Season) => InSeason(year, s.year))
  }

  /** `getSeasonSlug()`: the link to the first season containing the year, or none. */
  function SeasonLink(a: Achievement, seasons: seq<Season>): (link: Option<string>)
    ensures link.None? <==> FindSeason(a.year, seasons).None?
    ensures link.Some? ==> link.value == "/seasons/" + seasons[FindSeason(a.year, seasons).value].slug
  {
    match FindSeason(a.year, seasons)
    case None => None
    case Some(i) => Some("/seasons/" + seasons[i].slug)
  }

  /** The rendered card: a link to the season page, or a plain box. */
  datatype CardView = Linked(href: string, border: string) | Plain(border: string)

  function View(a: Achievement, seasons: seq<Season>): (v: CardView)
    ensures v.Linked? <==> SeasonLink(a, seasons).Some?
    ensures v.Linked? ==> v.href == SeasonLink(a, seasons).value
    ensures v.border == BorderColor(a.icon)
  {
    match SeasonLink(a, seasons)
    case Some(href) => Linked(href, BorderColor(a.icon))
    case None => Plain(BorderColor(a.icon))
  }

  /** A season written "y-y" or "y-(y+1)" around the achievement's year makes the card a link. */
  lemma CardLinksToSeason(a: Achievement, s: Season, start: nat, end: nat)
    requires s.year == IntToString(start) + "-" + IntToString(end) && start <= a.year <= end
    ensures View(a, [s]) == Linked("/seasons/" + s.slug, BorderColor(a.icon))
  {
    InSeasonRange(a.year, start, end);
  }
}
