/**
 * The match-results page of the older static site, js/results.js: the
 * `MatchData` object that turns the event record into display strings, and
 * the colour class `renderMatches` gives each alliance cell.
 */
module LegacyResults {
  import opened Wrappers
  import opened Text

  /** One qualification match as the JSON file gives it. */
  datatype RawMatch = RawMatch(
    matchNumber: int, redScore: int, blueScore: int,
    red1: int, red1Name: Option<string>, red2: int, red2Name: Option<string>,
    blue1: int, blue1Name: Option<string>, blue2: int, blue2Name: Option<string>)

  /** The parts of the event record `parseMatchData` reads (the start date is not modelled). */
  datatype RawEvent = RawEvent(
    eventName: string, venue: string, rank: int, totalTeams: int,
    wins: nat, losses: nat, ties: nat, matches: seq<RawMatch>)

  datatype EventInfo = EventInfo(name: string, location: string, ranking: string, record: string)

  /** One row of the table, every cell a string. */
  datatype MatchRow = MatchRow(matchLabel: string, score: string, red: seq<string>, blue: seq<string>, highlight: string)

  datatype Parsed = Parsed(eventInfo: EventInfo, matches: seq<MatchRow>)

  /** `${number} ${name || ""}`. */
  function TeamCell(number: int, name: Option<string>): (s: string)
    ensures IntToString(number) <= s && |s| > |IntToString(number)| && s[|IntToString(number)|] == ' '
    ensures !Truthy(name) ==> |s| == |IntToString(number)| + 1
    ensures Truthy(name) ==> s[|IntToString(number)| + 1..] == name.value
  {
    IntToString(number) + " " + (if Truthy(name) then name.value else "")
  }

  function MatchLabel(matchNumber: int): string {
    "Q-" + IntToString(matchNumber)
  }

  function ScoreLabel(red: int, blue: int): string {
    IntToString(red) + " - " + IntToString(blue)
  }

  function RankingLabel(rank: int, totalTeams: int): string {
    IntToString(rank) + " of " + IntToString(totalTeams)
  }

  function RecordLabel(wins: nat, losses: nat, ties: nat): string {
    IntToString(wins) + "-" + IntToString(losses) + "-" + IntToString(ties)
  }

  /** The object built once when the page loads, with the team number as a string. */
  class MatchData {
    const teamNumber: string

    constructor(teamNumber: string)
      ensures this.teamNumber == teamNumber
    {
      this.teamNumber := teamNumber;
    }

    /** The body of `data.matches.map(...)` for one match. */
    function FormatMatch(m: RawMatch): (row: MatchRow)
      ensures row.highlight == teamNumber
      ensures row.matchLabel == MatchLabel(m.matchNumber) && row.score == ScoreLabel(m.redScore, m.blueScore)
      ensures |row.red| == 2 && |row.blue| == 2
      ensures row.red == [TeamCell(m.red1, m.red1Name), TeamCell(m.red2, m.red2Name)]
      ensures row.blue == [TeamCell(m.blue1, m.blue1Name), TeamCell(m.blue2, m.blue2Name)]
    {
      MatchRow(
        MatchLabel(m.matchNumber),
        ScoreLabel(m.redScore, m.blueScore),
        [TeamCell(m.red1, m.red1Name), TeamCell(m.red2, m.red2Name)],
        [TeamCell(m.blue1, m.blue1Name), TeamCell(m.blue2, m.blue2Name)],
        teamNumber)
    }

    /** `parseMatchData(data)`: the event header and one row per match, in the same order. */
    function ParseMatchData(data: RawEvent): (r: Parsed)
      ensures r.eventInfo.name == data.eventName && r.eventInfo.location == data.venue
      ensures r.eventInfo.ranking == RankingLabel(data.rank, data.totalTeams)
      ensures r.eventInfo.record == RecordLabel(data.wins, data.losses, data.ties)
      ensures |r.matches| == |data.matches|
      ensures forall i :: 0 <= i < |data.matches| ==> r.matches[i] == FormatMatch(data.matches[i])
      ensures forall i :: 0 <= i < |r.matches| ==> r.matches[i].highlight == teamNumber
    {
      var info := EventInfo(data.eventName, data.venue,
        RankingLabel(data.rank, data.totalTeams), RecordLabel(data.wins, data.losses, data.ties));
      Parsed(info, seq(|data.matches|, i requires 0 <= i < |data.matches| => FormatMatch(data.matches[i])))
    }
  }

  const OurTeam: string := "24358"

  /** The object the page creates. */
  method NewMatchDisplay() returns (d: MatchData)
    ensures d.teamNumber == OurTeam
  {
    d := new MatchData(OurTeam);
  }

  /** The match label reads back: "Q-" then the match number. */
  lemma {:induction false} MatchLabelReadBack(matchNumber: int)
    ensures MatchLabel(matchNumber)[..2] == "Q-"
    ensures ParseInt(MatchLabel(matchNumber)[2..]) == Some(matchNumber)
  {
    assert MatchLabel(matchNumber)[2..] == IntToString(matchNumber);
    ParseIntOfIntToString(matchNumber);
  }

  /** Splitting the score on spaces gives the red score, a dash and the blue score. */
  lemma {:induction false} ScoreLabelRoundTrip(red: int, blue: int)
    ensures var parts := Split(ScoreLabel(red, blue), ' ');
      |parts| == 3 && parts[1] == "-"
      && ParseInt(parts[0]) == Some(red) && ParseInt(parts[2]) == Some(blue)
  {
    var fields := [IntToString(red), "-", IntToString(blue)];
    IntToStringChars(red);
    IntToStringChars(blue);
    Join3(IntToString(red), "-", IntToString(blue), ' ');
    assert Join(fields, ' ') == ScoreLabel(red, blue);
    JoinSplit(fields, ' ');
    ParseIntOfIntToString(red);
    ParseIntOfIntToString(blue);
  }

  /** Splitting the ranking on spaces gives the rank, "of" and the number of teams. */
  lemma {:induction false} RankingLabelRoundTrip(rank: int, totalTeams: int)
    ensures var parts := Split(RankingLabel(rank, totalTeams), ' ');
      |parts| == 3 && parts[1] == "of"
      && ParseInt(parts[0]) == Some(rank) && ParseInt(parts[2]) == Some(totalTeams)
  {
    var fields := [IntToString(rank), "of", IntToString(totalTeams)];
    IntToStringChars(rank);
    IntToStringChars(totalTeams);
    Join3(IntToString(rank), "of", IntToString(totalTeams), ' ');
    assert Join(fields, ' ') == RankingLabel(rank, totalTeams);
    JoinSplit(fields, ' ');
    ParseIntOfIntToString(rank);
    ParseIntOfIntToString(totalTeams);
  }

  /** Splitting the W-L-T record on dashes gives the three counts back. */
  lemma {:induction false} RecordLabelRoundTrip(wins: nat, losses: nat, ties: nat)
    ensures var parts := Split(RecordLabel(wins, losses, ties), '-');
      |parts| == 3
      && ParseInt(parts[0]) == Some(wins as int) && ParseInt(parts[1]) == Some(losses as int)
      && ParseInt(parts[2]) == Some(ties as int)
  {
    var fields := [IntToString(wins), IntToString(losses), IntToString(ties)];
    IntToStringChars(wins);
    IntToStringChars(losses);
    IntToStringChars(ties);
    Join3(IntToString(wins), IntToString(losses), IntToString(ties), '-');
    assert Join(fields, '-') == RecordLabel(wins, losses, ties);
    JoinSplit(fields, '-');
    ParseIntOfIntToString(wins);
    ParseIntOfIntToString(losses);
    ParseIntOfIntToString(ties);
  }

  /** A team cell starts with the team's number, which `parseInt` reads back. */
  lemma {:induction false} TeamCellReadBack(number: int, name: Option<string>)
    ensures ParseInt(TeamCell(number, name)) == Some(number)
  {
    var rest := " " + (if Truthy(name) then name.value else "");
    assert TeamCell(number, name) == IntToString(number) + rest;
    ParseIntOfIntToStringThen(number, rest);
  }

  /** A missing or empty name leaves just the number and a trailing space. */
  lemma NamelessCell(number: int, name: Option<string>)
    requires !Truthy(name)
    ensures TeamCell(number, name) == IntToString(number) + " "
  {
  }

  datatype Side = RedSide | BlueSide

  predicate IsDark(c: string) { c == "darkred" || c == "darkblue" }

  /** The class of an alliance cell: dark when the cell's text includes the highlight. */
  function CellClass(side: Side, team: string, highlight: string): (c: string)
    ensures IsDark(c) <==> Contains(team, highlight)
    ensures side == RedSide <==> c == "darkred" || c == "lightred"
    ensures side == BlueSide <==> c == "darkblue" || c == "lightblue"
  {
    var dark := Contains(team, highlight);
    match side
    case RedSide => if dark then "darkred" else "lightred"
    case BlueSide => if dark then "darkblue" else "lightblue"
  }

  /** The cell of the team's own number is dark, whatever the name beside it. */
  lemma OwnCellIsDark(side: Side, number: int, name: Option<string>)
    requires IntToString(number) == OurTeam
    ensures IsDark(CellClass(side, TeamCell(number, name), OurTeam))
  {
    ContainsAt(TeamCell(number, name), OurTeam, 0);
  }

  /** The decimal numeral of 124358, one digit at a time. */
  lemma Numeral124358()
    ensures IntToString(124358) == "124358"
  {
    assert NatToString(12) == "12";
    assert NatToString(124) == "124";
    assert NatToString(1243) == "1243";
    assert NatToString(12435) == "12435";
  }

  /**
   * `includes` is a substring test, so another team whose number contains
   * 24358 (say 124358) is drawn dark as well.
   */
  lemma LongerNumberIsDarkToo(side: Side, name: Option<string>)
    ensures IsDark(CellClass(side, TeamCell(124358, name), OurTeam))
  {
    var cell := TeamCell(124358, name);
    Numeral124358();
    assert cell[1..6] == OurTeam;
    ContainsAt(cell, OurTeam, 1);
  }
}
