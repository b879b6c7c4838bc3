/**
 * The leaderboard of app/points/page.tsx: score formatting, the rank
 * messages, the scoreboard sorted by the selected point type, its split into
 * podium, last place and middle, and the page's own state.
 */
module PointsPage {
  import opened Wrappers
  import opened Text
  import opened Sequences
  import opened Points

  // ---- formatNumber ----

  const Thousand: int := 1000
  const Million: int := 1000000
  const Billion: int := 1000000000
  const Trillion: int := 1000000000000

  function Abs(n: int): nat { if n < 0 then -n else n }

  /** A rounded value given in tenths: whole numbers without a decimal, others with one. */
  function ShowTenths(t: int): (s: string)
    requires t <= -10 || 10 <= t
    ensures |s| >= 1 && (s[0] == '-' <==> t < 0)
  {
    if t % 10 == 0 then
      var w := t / 10;
      assert w < 0 <==> t < 0;
      IntToString(w)
    else
      var digits := NatToString(Abs(t) / 10) + "." + [DigitChar(Abs(t) % 10)];
      if t < 0 then "-" + digits else digits
  }

  /** The divisor and suffix `formatNumber` picks for a magnitude of at least one thousand. */
  function Scale(n: int): (r: (int, char))
    requires Abs(n) >= Thousand
    ensures r.0 >= Thousand && Abs(n) >= r.0
    ensures r.1 == 'T' <==> Abs(n) >= Trillion
    ensures r.1 == 'B' <==> Billion <= Abs(n) < Trillion
    ensures r.1 == 'M' <==> Million <= Abs(n) < Billion
    ensures r.1 == 'K' <==> Abs(n) < Million
  {
    if Abs(n) >= Trillion then (Trillion, 'T')
    else if Abs(n) >= Billion then (Billion, 'B')
    else if Abs(n) >= Million then (Million, 'M')
    else (Thousand, 'K')
  }

  /** `formatNumber(num)` for an integer score. */
  function FormatNumber(n: int): (s: string)
    ensures |s| >= 1
    ensures s[0] == '-' <==> n < 0
    ensures Abs(n) < Thousand ==> s == IntToString(n)
    ensures Abs(n) >= Thousand ==> s[|s| - 1] == Scale(n).1
  {
    if Abs(n) < Thousand then IntToString(n)
    else
      var (d, suffix) := Scale(n);
      var t := Tenths(n, d);
      assert t <= -10 || 10 <= t by {
        if n < 0 {
          assert 20 * n + d <= -19 * d;
        } else {
          assert 20 * n + d >= 21 * d;
        }
      }
      ShowTenths(t) + [suffix]
  }

  /** A score below one thousand in magnitude is shown as itself and reads back unchanged. */
  lemma SmallScoreRoundTrip(n: int)
    requires Abs(n) < Thousand
    ensures ParseInt(FormatNumber(n)) == Some(n)
  {
    ParseIntOfIntToString(n);
  }

  // ---- getAbsurdMessage ----

  const GalacticOverlord: string := "🌌 GALACTIC OVERLORD 🌌"
  const MegaChampion: string := "👑 MEGA CHAMPION 👑"
  const AbsoluteLegend: string := "🏆 ABSOLUTE LEGEND 🏆"
  const RisingStar: string := "🌟 RISING STAR 🌟"
  const ParticipationTrophy: string := "✨ PARTICIPATION TROPHY ✨"
  const Obliterated: string := "💀 ABSOLUTELY OBLITERATED 💀"
  const NuclearDisaster: string := "💥 NUCLEAR DISASTER 💥"
  const Demolished: string := "💀 ABSOLUTELY DEMOLISHED 💀"
  const InTheNegatives: string := "😱 IN THE NEGATIVES 😱"
  const BarelyAlive: string := "🤡 BARELY ALIVE 🤡"
  const PerfectlyMediocre: string := "🎭 PERFECTLY MEDIOCRE 🎭"
  const GoingDownhill: string := "📉 GOING DOWNHILL 📉"
  const OnFire: string := "🔥 ON FIRE 🔥"
  const LivingTheDream: string := "🎪 LIVING THE DREAM 🎪"

  const ChampionMessages: set<string> :=
    {GalacticOverlord, MegaChampion, AbsoluteLegend, RisingStar, ParticipationTrophy}
  const LastPlaceMessages: set<string> :=
    {Obliterated, NuclearDisaster, Demolished, InTheNegatives, BarelyAlive}
  const MiddleMessages: set<string> :=
    {PerfectlyMediocre, GoingDownhill, OnFire, LivingTheDream}

  /** `getAbsurdMessage(score, rank, total)`. */
  function AbsurdMessage(score: int, rank: int, total: int): (m: string)
    ensures rank == 1 ==> m in ChampionMessages
    ensures rank != 1 && rank == total ==> m in LastPlaceMessages
    ensures rank != 1 && rank != total ==> m in MiddleMessages
    ensures m == GalacticOverlord || m == Obliterated <==> (rank == 1 || rank == total) && Abs(score) >= Billion
    // At rank 1, the magnitude thresholds below a billion.
    ensures rank == 1 && Million <= Abs(score) < Billion ==> m == MegaChampion
    ensures rank == 1 && 1000 <= Abs(score) < Million ==> m == AbsoluteLegend
    ensures rank == 1 && 100 <= Abs(score) < 1000 ==> m == RisingStar
    ensures rank == 1 && Abs(score) < 100 ==> m == ParticipationTrophy
    // At the last rank, the same thresholds, then the sign below a thousand.
    ensures rank != 1 && rank == total && Million <= Abs(score) < Billion ==> m == NuclearDisaster
    ensures rank != 1 && rank == total && 1000 <= Abs(score) < Million ==> m == Demolished
    ensures rank != 1 && rank == total && Abs(score) < 1000 && score < 0 ==> m == InTheNegatives
    ensures rank != 1 && rank == total && Abs(score) < 1000 && score >= 0 ==> m == BarelyAlive
    ensures m == InTheNegatives ==> rank != 1 && rank == total && score < 0 && Abs(score) < 1000
    // Every other rank: zero, then the sign (whatever the magnitude), then a thousand.
    ensures rank != 1 && rank != total && score == 0 ==> m == PerfectlyMediocre
    ensures rank != 1 && rank != total && score < 0 ==> m == GoingDownhill
    ensures rank != 1 && rank != total && score >= 1000 ==> m == OnFire
    ensures rank != 1 && rank != total && 0 < score < 1000 ==> m == LivingTheDream
  {
    var a := Abs(score);
    if rank == 1 then
      if a >= Billion then GalacticOverlord
      else if a >= Million then MegaChampion
      else if a >= 1000 then AbsoluteLegend
      else if a >= 100 then RisingStar
      else ParticipationTrophy
    else if rank == total then
      if a >= Billion then Obliterated
      else if a >= Million then NuclearDisaster
      else if a >= 1000 then Demolished
      else if score < 0 then InTheNegatives
      else BarelyAlive
    else if score == 0 then PerfectlyMediocre
    else if score < 0 then GoingDownhill
    else if a >= 1000 then OnFire
    else LivingTheDream
  }

  /** The three tiers share no message, so a message tells its tier. */
  lemma MessageTiersDisjoint(m: string)
    ensures !(m in ChampionMessages && m in LastPlaceMessages)
    ensures !(m in ChampionMessages && m in MiddleMessages)
    ensures !(m in LastPlaceMessages && m in MiddleMessages)
  {
  }

  // ---- The scoreboard ----

  /** `ScoreboardEntry`. */
  datatype ScoreEntry = ScoreEntry(name: string, pointsByClass: seq<(string, int)>, combined: int)

  /** The scoreboard before sorting: one entry per member, in the table's order. */
  function Scoreboard(data: seq<Member>): (r: seq<ScoreEntry>)
    ensures |r| == |data|
    ensures forall i :: 0 <= i < |r| ==> r[i].name == data[i].name && r[i].pointsByClass == data[i].scores
  {
    seq(|data|, i requires 0 <= i < |data| => ScoreEntry(data[i].name, data[i].scores, CombinedScore(data, data[i].name)))
  }

  /** In a well-formed table every entry's combined score is the sum of its own record. */
  lemma ScoreboardCombined(data: seq<Member>, i: nat)
    requires WellFormed(data) && i < |data|
    ensures Scoreboard(data)[i].combined == SumValues(data[i].scores)
  {
    LookupMember(data, i);
  }

  /** The name of the selector's "combined" option. */
  const CombinedClass: string := "combined"

  /** `sortKey(entry)`: the combined score, or the value of the selected type (0 if absent). */
  function ScoreOf(e: ScoreEntry, cls: string): (s: int)
    ensures cls == CombinedClass ==> s == e.combined
    ensures cls != CombinedClass && cls !in KeySet(e.pointsByClass) ==> s == 0
    ensures cls != CombinedClass && DistinctKeys(e.pointsByClass) ==>
      forall j :: 0 <= j < |e.pointsByClass| && e.pointsByClass[j].0 == cls ==> s == e.pointsByClass[j].1
  {
    if cls == CombinedClass then e.combined else Value(e.pointsByClass, cls)
  }

  /** The comparator `(a, b) => sortKey(b) - sortKey(a)` as an ascending key. */
  function DescendingKey(cls: string): ScoreEntry -> int {
    e => -ScoreOf(e, cls)
  }

  ghost predicate Descending(board: seq<ScoreEntry>, cls: string) {
    forall i, j :: 0 <= i < j < |board| ==> ScoreOf(board[i], cls) >= ScoreOf(board[j], cls)
  }

  /** The effect: build the entries and sort them in place by descending score for `cls`. */
  method SortedScoreboard(data: seq<Member>, cls: string) returns (board: seq<ScoreEntry>)
    ensures board == SortBy(Scoreboard(data), DescendingKey(cls))
    ensures multiset(board) == multiset(Scoreboard(data))
    ensures Descending(board, cls)
  {
    var entries := Scoreboard(data);
    var a := new ScoreEntry[|entries|](i requires 0 <= i < |entries| => entries[i]);
    assert a[..] == entries;
    SortInPlace(a, DescendingKey(cls));
    board := a[..];
    assert SortedBy(board, DescendingKey(cls));
  }

  // ---- Podium, last place and middle ----

  /** One rendered card: who, at which rank, the score shown and the message. */
  datatype Card = Card(name: string, rank: int, score: int, shown: string, message: string)

  /** The card for `board[i]`, at rank `i + 1`, with `total` passed to the message. */
  function CardAt(board: seq<ScoreEntry>, cls: string, i: nat, total: int): (c: Card)
    requires i < |board|
    ensures c.name == board[i].name && c.rank == i + 1 && c.score == ScoreOf(board[i], cls)
    ensures c.shown == FormatNumber(c.score) && c.message == AbsurdMessage(c.score, i + 1, total)
  {
    var s := ScoreOf(board[i], cls);
    Card(board[i].name, i + 1, s, FormatNumber(s), AbsurdMessage(s, i + 1, total))
  }

  function Cards(board: seq<ScoreEntry>, cls: string, lo: nat, hi: nat, total: int): (r: seq<Card>)
    requires lo <= hi <= |board|
    ensures |r| == hi - lo && forall k :: 0 <= k < |r| ==> r[k] == CardAt(board, cls, lo + k, total)
  {
    seq(hi - lo, k requires 0 <= k < hi - lo => CardAt(board, cls, lo + k, total))
  }

  datatype Layout = Layout(podium: seq<Card>, last: Option<Card>, middle: seq<Card>)

  /** The cards top to bottom by rank: podium, middle, then last place. */
  function InRankOrder(l: Layout): seq<Card> {
    l.podium + l.middle + (if l.last.Some? then [l.last.value] else [])
  }

  /**
   * The four blocks of the page: the podium (only with at least three entries)
   * passes `podiumTotal` to the message; last place and the middle pass the
   * board size.
   */
  function Arrange(board: seq<ScoreEntry>, cls: string, podiumTotal: int): (l: Layout)
    ensures |board| < 3 ==> InRankOrder(l) == []
    ensures |board| >= 3 ==>
      InRankOrder(l) == Cards(board, cls, 0, 3, podiumTotal) + Cards(board, cls, 3, |board|, |board|)
  {
    var n := |board|;
    TailInRankOrder(board, cls);
    Layout(
      if n >= 3 then Cards(board, cls, 0, 3, podiumTotal) else [],
      if n > 3 then Some(CardAt(board, cls, n - 1, n)) else None,
      if n > 4 then Cards(board, cls, 3, n - 1, n) else [])
  }

  /** Below the podium, the middle followed by last place are ranks 4 to n in order. */
  lemma {:induction false} TailInRankOrder(board: seq<ScoreEntry>, cls: string)
    ensures var n := |board|;
      n >= 3 ==>
        (if n > 4 then Cards(board, cls, 3, n - 1, n) else [])
        + (if n > 3 then [CardAt(board, cls, n - 1, n)] else [])
        == Cards(board, cls, 3, n, n)
  {
    var n := |board|;
    if n > 4 {
      MiddleThenLast(board, cls);
    } else if n == 4 {
      assert Cards(board, cls, 3, n, n)[0] == CardAt(board, cls, 3, 4);
    }
  }

  lemma {:induction false} MiddleThenLast(board: seq<ScoreEntry>, cls: string)
    requires |board| > 4
    ensures Cards(board, cls, 3, |board| - 1, |board|) + [CardAt(board, cls, |board| - 1, |board|)]
      == Cards(board, cls, 3, |board|, |board|)
  {
    var n := |board|;
    var all := Cards(board, cls, 3, n, n);
    var joined := Cards(board, cls, 3, n - 1, n) + [CardAt(board, cls, n - 1, n)];
    forall k | 0 <= k < |all| ensures joined[k] == all[k] {
    }
  }

  /** The podium followed by ranks 4 to n is the whole board, with every message told the board size. */
  lemma {:induction false} CardsJoin(board: seq<ScoreEntry>, cls: string)
    requires |board| >= 3
    ensures Cards(board, cls, 0, 3, |board|) + Cards(board, cls, 3, |board|, |board|)
      == Cards(board, cls, 0, |board|, |board|)
  {
    var n := |board|;
    var all := Cards(board, cls, 0, n, n);
    var joined := Cards(board, cls, 0, 3, n) + Cards(board, cls, 3, n, n);
    forall k | 0 <= k < n ensures joined[k] == all[k] {
      if k >= 3 {
        assert joined[k] == Cards(board, cls, 3, n, n)[k - 3];
      }
    }
  }

  /**
   * The page as written: the podium passes a total of 3 to the message, so its
   * third card is judged as if it were last.
   */
  function LayoutAsWritten(board: seq<ScoreEntry>, cls: string): (l: Layout)
    ensures |board| < 3 ==> InRankOrder(l) == []
    ensures |board| >= 3 ==>
      InRankOrder(l) == Cards(board, cls, 0, 3, 3) + Cards(board, cls, 3, |board|, |board|)
  {
    Arrange(board, cls, 3)
  }

  /**
   * As written, with three or more entries, a last-place message falls on
   * third place and on the last card, and nowhere else; with four or more
   * entries, third place is not last.
   */
  lemma {:induction false} ThirdPlaceShamedAsWritten(board: seq<ScoreEntry>, cls: string)
    requires |board| >= 3
    ensures forall k :: 0 <= k < |board| ==>
      (InRankOrder(LayoutAsWritten(board, cls))[k].message in LastPlaceMessages <==> k == 2 || k == |board| - 1)
    ensures |board| >= 4 ==>
      LayoutAsWritten(board, cls).podium[2].rank == 3 < |board|
      && LayoutAsWritten(board, cls).podium[2].message in LastPlaceMessages
  {
    var n := |board|;
    var shown := InRankOrder(LayoutAsWritten(board, cls));
    forall k | 0 <= k < n
      ensures shown[k].message in LastPlaceMessages <==> k == 2 || k == n - 1
    {
      if k < 3 {
        assert shown[k] == CardAt(board, cls, k, 3);
      } else {
        assert shown[k] == Cards(board, cls, 3, n, n)[k - 3];
      }
      MessageTiersDisjoint(shown[k].message);
    }
    if n >= 4 {
      assert LayoutAsWritten(board, cls).podium[2] == shown[2];
    }
  }

  /** The layout with the podium told the board size too, as the other blocks are. */
  function PageLayout(board: seq<ScoreEntry>, cls: string): (l: Layout)
    ensures |board| < 3 ==> InRankOrder(l) == []
    ensures |board| >= 3 ==> InRankOrder(l) == Cards(board, cls, 0, |board|, |board|)
  {
    if |board| >= 3 then CardsJoin(board, cls); Arrange(board, cls, |board|)
    else Arrange(board, cls, |board|)
  }

  /**
   * With three or more entries, every entry is shown once, at rank position + 1,
   * and a last-place message appears on the last card only.
   */
  lemma {:induction false} PageLayoutShowsEveryEntry(board: seq<ScoreEntry>, cls: string)
    requires |board| >= 3
    ensures forall k :: 0 <= k < |board| ==>
      InRankOrder(PageLayout(board, cls))[k].rank == k + 1
      && InRankOrder(PageLayout(board, cls))[k].name == board[k].name
    ensures forall k :: 0 <= k < |board| ==>
      (InRankOrder(PageLayout(board, cls))[k].message in LastPlaceMessages <==> k == |board| - 1)
  {
    var n := |board|;
    var all := Cards(board, cls, 0, n, n);
    forall k | 0 <= k < n
      ensures all[k].message in LastPlaceMessages <==> k == n - 1
    {
      MessageTiersDisjoint(all[k].message);
    }
  }

  // ---- The page's state ----

  /** Clicks on the title that switch chaos and party mode on. */
  const ChaosClicks: int := 10

  class Page {
    const data: seq<Member>
    var selected: string
    var board: seq<ScoreEntry>
    var clickCount: int
    var partyMode: bool
    var chaosMode: bool

    /** The board is always the full scoreboard, sorted for the selected type. */
    ghost predicate Valid()
      reads this
    {
      multiset(board) == multiset(Scoreboard(data)) && Descending(board, selected)
    }

    /** The page once mounted: "combined" selected, its effect run, no clicks. */
    constructor (data: seq<Member>)
      ensures Valid() && this.data == data && selected == CombinedClass
      ensures board == SortBy(Scoreboard(data), DescendingKey(CombinedClass))
      ensures clickCount == 0 && !partyMode && !chaosMode
    {
      var sorted := SortedScoreboard(data, CombinedClass);
      this.data := data;
      selected := CombinedClass;
      clickCount := 0;
      partyMode := false;
      chaosMode := false;
      board := sorted;
    }

    /** Picking a type in the selector; the effect re-sorts the scoreboard. */
    method Select(cls: string)
      requires Valid()
      modifies this
      ensures Valid() && selected == cls
      ensures board == SortBy(Scoreboard(data), DescendingKey(cls))
      ensures clickCount == old(clickCount) && partyMode == old(partyMode) && chaosMode == old(chaosMode)
    {
      selected := cls;
      board := SortedScoreboard(data, cls);
    }

    /** `handleTitleClick`: count the click; from the tenth on, chaos and party mode are on. */
    method HandleTitleClick()
      requires Valid()
      modifies this
      ensures Valid() && board == old(board) && selected == old(selected)
      ensures clickCount == old(clickCount) + 1
      ensures chaosMode == (old(chaosMode) || clickCount >= ChaosClicks)
      ensures partyMode == (old(partyMode) || clickCount >= ChaosClicks)
    {
      var newCount := clickCount + 1;
      clickCount := newCount;
      if newCount >= ChaosClicks {
        chaosMode := true;
        partyMode := true;
      }
    }

    /** The timeout set by the click handler: chaos mode ends, party mode stays. */
    method ChaosTimeout()
      requires Valid()
      modifies this
      ensures Valid() && !chaosMode
      ensures board == old(board) && selected == old(selected)
      ensures clickCount == old(clickCount) && partyMode == old(partyMode)
    {
      chaosMode := false;
    }

    /**
     * What the page renders from its state, as written: nothing below three
     * entries; otherwise every entry in rank order, with last-place messages
     * on third place and on the last card.
     */
    function View(): (l: Layout)
      reads this
      ensures |board| < 3 ==> InRankOrder(l) == []
      ensures |board| >= 3 ==>
        InRankOrder(l) == Cards(board, selected, 0, 3, 3) + Cards(board, selected, 3, |board|, |board|)
      ensures |board| >= 3 ==> forall k :: 0 <= k < |board| ==>
        (InRankOrder(l)[k].message in LastPlaceMessages <==> k == 2 || k == |board| - 1)
    {
      if |board| >= 3 then ThirdPlaceShamedAsWritten(board, selected); LayoutAsWritten(board, selected)
      else LayoutAsWritten(board, selected)
    }
  }

  /** Ten clicks on a fresh page switch chaos and party mode on. */
  method TenClicks(data: seq<Member>) returns (chaos: bool, party: bool)
    ensures chaos && party
  {
    var page := new Page(data);
    for i := 0 to ChaosClicks
      invariant page.Valid() && page.clickCount == i
      invariant page.chaosMode == (i >= ChaosClicks) && page.partyMode == (i >= ChaosClicks)
    {
      page.HandleTitleClick();
    }
    chaos, party := page.chaosMode, page.partyMode;
  }
}
