/**
 * The per-event match list of components/EventMatchGroup.tsx: keep the played
 * matches in match-number order, tally wins, losses and ties from the alliance
 * scores, and split each match's teams into opponents and partners.
 */
module MatchGroup {
  import opened Wrappers
  import opened Sequences

  datatype Alliance = Red | Blue

  /** `MatchScores`: each alliance's `totalPoints`. */
  datatype MatchScores = MatchScores(red: int, blue: int)

  /** `TeamInMatch`: the alliance and the team's name and number. */
  datatype TeamInMatch = TeamInMatch(alliance: Alliance, name: string, number: int)

  /** The parts of `Match` the component reads. */
  datatype Match = Match(hasBeenPlayed: bool, matchNum: int, scores: Option<MatchScores>, teams: seq<TeamInMatch>)

  /** `TeamMatch`: which alliance the operating team was on, and the match. */
  datatype TeamMatch = TeamMatch(alliance: Alliance, game: Match)

  datatype Outcome = Win | Loss | Tie

  predicate IsPlayed(m: TeamMatch) {
    m.game.hasBeenPlayed && m.game.scores.Some?
  }

  function MatchNumber(m: TeamMatch): int { m.game.matchNum }

  /** `matches.filter(played).sort(by matchNum)`. */
  function PlayedMatches(matches: seq<TeamMatch>): (r: seq<TeamMatch>)
    ensures forall i :: 0 <= i < |r| ==> IsPlayed(r[i])
    ensures forall m :: multiset(r)[m] == if IsPlayed(m) then multiset(matches)[m] else 0
    ensures forall i, j :: 0 <= i < j < |r| ==> r[i].game.matchNum <= r[j].game.matchNum
    ensures r == SortBy(Filter(matches, IsPlayed), MatchNumber)
  {
    var played := Filter(matches, IsPlayed);
    FilterCount(matches, IsPlayed);
    var r := SortBy(played, MatchNumber);
    assert forall i :: 0 <= i < |r| ==> r[i] in multiset(played);
    assert SortedBy(r, MatchNumber);
    r
  }

  /** The operating alliance's score and the other alliance's. */
  function OurScore(a: Alliance, s: MatchScores): int {
    if a == Red then s.red else s.blue
  }

  function OpponentScore(a: Alliance, s: MatchScores): int {
    if a == Red then s.blue else s.red
  }

  /** The tally's classification of one match. */
  function Classify(a: Alliance, s: MatchScores): (o: Outcome)
    ensures o == Win <==> OurScore(a, s) > OpponentScore(a, s)
    ensures o == Loss <==> OurScore(a, s) < OpponentScore(a, s)
    ensures o == Tie <==> OurScore(a, s) == OpponentScore(a, s)
  {
    var ours, theirs := OurScore(a, s), OpponentScore(a, s);
    if ours > theirs then Win else if ours < theirs then Loss else Tie
  }

  /** The number of matches with scores whose classification is `o`. */
  function Count(ms: seq<TeamMatch>, o: Outcome): nat {
    if ms == [] then 0
    else
      var last := ms[|ms| - 1];
      Count(ms[..|ms| - 1], o)
        + (if last.game.scores.Some? && Classify(last.alliance, last.game.scores.value) == o then 1 else 0)
  }

  /** The `forEach` that counts the event record. */
  method TallyRecord(played: seq<TeamMatch>) returns (wins: nat, losses: nat, ties: nat)
    ensures wins == Count(played, Win) && losses == Count(played, Loss) && ties == Count(played, Tie)
  {
    wins, losses, ties := 0, 0, 0;
    for i := 0 to |played|
      invariant wins == Count(played[..i], Win)
      invariant losses == Count(played[..i], Loss)
      invariant ties == Count(played[..i], Tie)
    {
      assert played[..i + 1][..i] == played[..i];
      var m := played[i];
      if m.game.scores.None? {
        continue;
      }
      var scores := m.game.scores.value;
      var ours := OurScore(m.alliance, scores);
      var theirs := OpponentScore(m.alliance, scores);
      if ours > theirs {
        wins := wins + 1;
      } else if ours < theirs {
        losses := losses + 1;
      } else {
        ties := ties + 1;
      }
    }
    assert played[..|played|] == played;
  }

  /** Over matches that all have scores, the three counts add up to the number of matches. */
  lemma {:induction false} CountsCoverPlayed(ms: seq<TeamMatch>)
    requires forall i :: 0 <= i < |ms| ==> IsPlayed(ms[i])
    ensures Count(ms, Win) + Count(ms, Loss) + Count(ms, Tie) == |ms|
  {
    if ms != [] {
      CountsCoverPlayed(ms[..|ms| - 1]);
    }
  }

  /** The `won` and `tied` flags the match card shows. */
  function Won(m: TeamMatch): (b: bool)
    requires m.game.scores.Some?
    ensures b <==> Classify(m.alliance, m.game.scores.value) == Win
  {
    OurScore(m.alliance, m.game.scores.value) > OpponentScore(m.alliance, m.game.scores.value)
  }

  function Tied(m: TeamMatch): (b: bool)
    requires m.game.scores.Some?
    ensures b <==> Classify(m.alliance, m.game.scores.value) == Tie
  {
    OurScore(m.alliance, m.game.scores.value) == OpponentScore(m.alliance, m.game.scores.value)
  }

  /** The card's WIN / TIE / LOSS banner agrees with the tally's classification. */
  lemma FlagsAgreeWithTally(m: TeamMatch)
    requires m.game.scores.Some?
    ensures var o := Classify(m.alliance, m.game.scores.value);
      (Won(m) <==> o == Win) && (Tied(m) <==> o == Tie) && (!Won(m) && !Tied(m) <==> o == Loss)
  {
  }

  function OtherAlliance(a: Alliance): (b: Alliance)
    ensures b != a
  {
    if a == Red then Blue else Red
  }

  /** The teams on the other alliance. */
  function Opponents(m: TeamMatch): (r: seq<TeamInMatch>)
    ensures forall i :: 0 <= i < |r| ==> r[i].alliance != m.alliance
    ensures forall t :: multiset(r)[t] == if t.alliance != m.alliance then multiset(m.game.teams)[t] else 0
  {
    var other := OtherAlliance(m.alliance);
    FilterCount(m.game.teams, (t: TeamInMatch) => t.alliance == other);
    Filter(m.game.teams, (t: TeamInMatch) => t.alliance == other)
  }

  /** The teams on our alliance other than the operating team. */
  function Partners(m: TeamMatch, teamNumber: int): (r: seq<TeamInMatch>)
    ensures forall i :: 0 <= i < |r| ==> r[i].alliance == m.alliance && r[i].number != teamNumber
    ensures forall t :: (multiset(r)[t]
      == if t.alliance == m.alliance && t.number != teamNumber then multiset(m.game.teams)[t] else 0)
  {
    var ours := m.alliance;
    FilterCount(m.game.teams, (t: TeamInMatch) => t.alliance == ours && t.number != teamNumber);
    Filter(m.game.teams, (t: TeamInMatch) => t.alliance == ours && t.number != teamNumber)
  }

  /** What the component renders: nothing without a played match, else the record and the list. */
  datatype EventView = EventView(wins: nat, losses: nat, ties: nat, played: seq<TeamMatch>)

  method EventMatchGroup(matches: seq<TeamMatch>) returns (view: Option<EventView>)
    ensures view.None? <==> forall m :: m in matches ==> !IsPlayed(m)
    ensures view.Some? ==>
      var p := PlayedMatches(matches);
      view.value.played == p
      && view.value.wins == Count(p, Win) && view.value.losses == Count(p, Loss) && view.value.ties == Count(p, Tie)
      && view.value.wins + view.value.losses + view.value.ties == |p| > 0
  {
    var played := PlayedMatches(matches);
    if |played| == 0 {
      forall m | m in matches ensures !IsPlayed(m) {
        assert multiset(played)[m] == 0;
      }
      return None;
    }
    assert played[0] in matches by {
      assert multiset(played)[played[0]] > 0;
    }
    var w, l, t := TallyRecord(played);
    CountsCoverPlayed(played);
    return Some(EventView(w, l, t, played));
  }
}
