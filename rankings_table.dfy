/**
 * The searchable, sortable event table of components/RankingsTable.tsx: the
 * rows whose number or name contains the search term, sorted by the chosen
 * column on a copy, with the operating team's row highlighted.
 */
module RankingsTable {
  import opened Wrappers
  import opened Text
  import opened Sequences
  import opened FtcApi

  /** The `sortBy` choices. */
  datatype Column = ByRank | ByAuto | ByTeleop | ByTotal

  /** The search: the number contains the term, or the lower-cased name the lower-cased term. */
  function MatchesSearch(team: RankingData, term: string): (b: bool)
    ensures term == "" ==> b
    ensures Contains(team.teamNumber, term) ==> b
    ensures Contains(ToLower(team.teamName), ToLower(term)) ==> b
    ensures b ==> Contains(team.teamNumber, term) || Contains(ToLower(team.teamName), ToLower(term))
  {
    ContainsEmpty(team.teamNumber);
    Contains(team.teamNumber, term) || Contains(ToLower(team.teamName), ToLower(term))
  }

  /**
   * The comparator as an ascending key: rank ascending, the three score
   * columns descending.
   */
  function ColumnKey(col: Column): (key: RankingData -> int)
    ensures forall r :: col == ByRank ==> key(r) == r.rank
    ensures forall r :: col == ByAuto ==> key(r) == -r.autoScore
    ensures forall r :: col == ByTeleop ==> key(r) == -r.driverScore
    ensures forall r :: col == ByTotal ==> key(r) == -r.totalPoints
  {
    match col
    case ByRank => (r: RankingData) => r.rank
    case ByAuto => (r: RankingData) => -r.autoScore
    case ByTeleop => (r: RankingData) => -r.driverScore
    case ByTotal => (r: RankingData) => -r.totalPoints
  }

  /** `filteredRankings`. */
  function Filtered(rows: seq<RankingData>, term: string): (r: seq<RankingData>)
    ensures forall i :: 0 <= i < |r| ==> MatchesSearch(r[i], term)
    ensures forall t :: multiset(r)[t] == if MatchesSearch(t, term) then multiset(rows)[t] else 0
  {
    FilterCount(rows, (t: RankingData) => MatchesSearch(t, term));
    Filter(rows, (t: RankingData) => MatchesSearch(t, term))
  }

  /** What the table shows: the filtered rows, sorted by the column on a copy. */
  method SortedRankings(rows: seq<RankingData>, term: string, col: Column) returns (shown: seq<RankingData>)
    ensures shown == SortBy(Filtered(rows, term), ColumnKey(col))
    ensures multiset(shown) == multiset(Filtered(rows, term))
    ensures SortedBy(shown, ColumnKey(col))
    ensures shown == [] <==> forall i :: 0 <= i < |rows| ==> !MatchesSearch(rows[i], term)
  {
    var filtered := Filtered(rows, term);
    var a := new RankingData[|filtered|](i requires 0 <= i < |filtered| => filtered[i]);
    assert a[..] == filtered;
    SortInPlace(a, ColumnKey(col));
    shown := a[..];
    if shown == [] {
      forall i | 0 <= i < |rows| ensures !MatchesSearch(rows[i], term) {
        assert multiset(filtered)[rows[i]] == 0;
      }
    } else {
      assert shown[0] in multiset(filtered);
    }
  }

  /** The "No teams found" notice is shown exactly when no row matches. */
  function NoTeamsFound(rows: seq<RankingData>, term: string): (b: bool)
    ensures b <==> forall i :: 0 <= i < |rows| ==> !MatchesSearch(rows[i], term)
  {
    FilterCount(rows, (t: RankingData) => MatchesSearch(t, term));
    assert forall i :: 0 <= i < |rows| ==> rows[i] in multiset(rows);
    |Filtered(rows, term)| == 0
  }

  /** The empty search term keeps every row. */
  lemma EmptySearchKeepsAll(rows: seq<RankingData>)
    ensures Filtered(rows, "") == rows
  {
    forall i | 0 <= i < |rows| ensures MatchesSearch(rows[i], "") {
      ContainsEmpty(rows[i].teamNumber);
    }
    FilterKeepsAll(rows, (t: RankingData) => MatchesSearch(t, ""));
  }

  /** A row whose number is all digits does not contain a term with a non-digit in it. */
  lemma {:induction false} DigitsContainOnlyDigits(s: string, term: string)
    requires AllDigits(s)
    requires exists k :: 0 <= k < |term| && !IsDigit(term[k])
    ensures !Contains(s, term)
  {
    var k :| 0 <= k < |term| && !IsDigit(term[k]);
    if s != [] {
      DigitsContainOnlyDigits(s[1..], term);
    }
  }

  lemma ToLowerIdempotent(s: string)
    ensures ToLower(ToLower(s)) == ToLower(s)
  {
  }

  /**
   * For numeric team numbers, the search does not depend on the case of the
   * term: searching for the term and for its lower-case form match the same rows.
   */
  lemma SearchIgnoresCase(team: RankingData, term: string)
    requires AllDigits(team.teamNumber)
    ensures MatchesSearch(team, term) == MatchesSearch(team, ToLower(term))
  {
    ToLowerIdempotent(term);
    if AllDigits(term) {
      assert ToLower(term) == term;
    } else {
      var k :| 0 <= k < |term| && !IsDigit(term[k]);
      assert !IsDigit(ToLower(term)[k]);
      DigitsContainOnlyDigits(team.teamNumber, term);
      DigitsContainOnlyDigits(team.teamNumber, ToLower(term));
    }
  }

  /** The highlighted row: the one whose number is "24358". */
  function Highlighted(row: RankingData): (b: bool)
    ensures b ==> ParseInt(row.teamNumber) == Some(24358)
  {
    TeamNumberMatch(24358);
    ParseIntOfIntToString(24358);
    row.teamNumber == TeamNumber
  }

  /** In the table built from the upstream list, a row is highlighted exactly for team 24358. */
  lemma HighlightIsOurTeam(rows: seq<FtcTeamRanking>, i: nat)
    requires i < |rows|
    ensures Highlighted(MapRows(rows)[i]) <==> rows[i].teamNumber == 24358
  {
    TeamNumberMatch(rows[i].teamNumber);
  }
}
