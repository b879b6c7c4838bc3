/**
 * The rankings fetcher of lib/ftc-api.ts: the upstream response is mapped to
 * the site's `MatchResults` shape, read through the cache under one key, and
 * projected to the operating team's statistics. The upstream call itself is a
 * parameter (`Upstream`): whatever `fetch` would have produced.
 */
module FtcApi {
  import opened Wrappers
  import opened Text
  import Cache

  /** The operating team, as the string the source compares against. */
  const TeamNumber: string := "24358"
  const RankingsCacheKey: string := "ftc-rankings"
  const DefaultUsername: string := "boonstra"

  /** One row of the upstream rankings list. */
  datatype FtcTeamRanking = FtcTeamRanking(
    rank: int, teamNumber: int, teamName: string,
    wins: int, losses: int, ties: int, matchesPlayed: int,
    sortOrder1: int, sortOrder2: int, sortOrder3: int, sortOrder4: int)

  /** One row of the site's rankings table (`RankingData` of lib/types.ts). */
  datatype RankingData = RankingData(
    rank: int, teamNumber: string, teamName: string, record: string,
    matchesPlayed: int, autoScore: int, driverScore: int, endScore: int, totalPoints: int)

  /** `MatchResults` of lib/types.ts, without the `lastUpdated` timestamp. */
  datatype MatchResults = MatchResults(
    eventName: string, startDate: string, venue: string,
    rank: int, totalTeams: int, wins: int, losses: int, ties: int,
    rankings: seq<RankingData>)

  /** The object `getTeamStats` returns. */
  datatype TeamStats = TeamStats(
    rank: int, totalTeams: int, record: string,
    wins: int, losses: int, ties: int,
    avgAuto: int, avgTeleOp: int, avgEndgame: int, totalPoints: int, matchesPlayed: int)

  /** The decoded JSON body of the upstream reply. */
  datatype Payload =
    | Rankings(rows: seq<FtcTeamRanking>)  // `{rankings: [...]}`
    | NoRankings                            // a body without a `rankings` array
    | Unparseable                           // `response.json()` rejects

  /** What the upstream `fetch` produced. */
  datatype Upstream =
    | NetworkError(message: string)         // `fetch` rejects
    | Reply(status: int, payload: Payload)

  /** `response.ok`. */
  predicate StatusOk(status: int) { 200 <= status <= 299 }

  /** `${wins}-${losses}-${ties}`. */
  function RecordString(wins: int, losses: int, ties: int): string {
    IntToString(wins) + "-" + IntToString(losses) + "-" + IntToString(ties)
  }

  /** The three counts can be read back from the record string. */
  lemma RecordStringFields(wins: int, losses: int, ties: int)
    requires wins >= 0 && losses >= 0 && ties >= 0
    ensures Split(RecordString(wins, losses, ties), '-') == [IntToString(wins), IntToString(losses), IntToString(ties)]
  {
    var a, b, c := IntToString(wins), IntToString(losses), IntToString(ties);
    IntToStringChars(wins);
    IntToStringChars(losses);
    IntToStringChars(ties);
    SplitNoSep(a, '-');
    SplitNoSep(b, '-');
    SplitNoSep(c, '-');
    SplitAppend(a, '-', b + "-" + c);
    assert RecordString(wins, losses, ties) == a + "-" + (b + "-" + c);
    SplitAppend(b, '-', c);
  }

  /** The mapping of one upstream row to a table row. */
  function ToRankingData(team: FtcTeamRanking): (row: RankingData)
    ensures row.rank == team.rank && row.teamName == team.teamName
    ensures row.teamNumber == IntToString(team.teamNumber)
    ensures row.matchesPlayed == team.matchesPlayed
    ensures row.autoScore == team.sortOrder1 && row.driverScore == team.sortOrder2
    ensures row.endScore == team.sortOrder3 && row.totalPoints == team.sortOrder4
    ensures row.record == RecordString(team.wins, team.losses, team.ties)
  {
    RankingData(team.rank, IntToString(team.teamNumber), team.teamName,
      RecordString(team.wins, team.losses, team.ties), team.matchesPlayed,
      team.sortOrder1, team.sortOrder2, team.sortOrder3, team.sortOrder4)
  }

  function MapRows(rows: seq<FtcTeamRanking>): (r: seq<RankingData>)
    ensures |r| == |rows|
    ensures forall i :: 0 <= i < |rows| ==> r[i] == ToRankingData(rows[i])
  {
    seq(|rows|, i requires 0 <= i < |rows| => ToRankingData(rows[i]))
  }

  /** The index of the first upstream row whose `teamNumber.toString()` is the operating team's. */
  function FindUpstreamTeam(rows: seq<FtcTeamRanking>): (r: Option<nat>)
    ensures r.Some? ==> r.value < |rows| && IntToString(rows[r.value].teamNumber) == TeamNumber
    ensures r.Some? ==> forall j :: 0 <= j < r.value ==> IntToString(rows[j].teamNumber) != TeamNumber
    ensures r.None? ==> forall j :: 0 <= j < |rows| ==> IntToString(rows[j].teamNumber) != TeamNumber
  {
    if rows == [] then None
    else if IntToString(rows[0].teamNumber) == TeamNumber then Some(0)
    else match FindUpstreamTeam(rows[1..])
      case None => None
      case Some(k) => Some(k + 1)
  }

  /** Comparing `teamNumber.toString()` with "24358" is comparing the number with 24358. */
  lemma TeamNumberMatch(n: int)
    ensures IntToString(n) == TeamNumber <==> n == 24358
  {
    assert IntToString(24358) == TeamNumber by {
      assert NatToString(2) == "2";
      assert NatToString(24) == "24";
      assert NatToString(243) == "243";
      assert NatToString(2435) == "2435";
    }
    IntToStringInjective(n, 24358);
  }

  /**
   * `fetchRankingsFromAPI()`: a failed request, a non-OK status or a body
   * without a rankings list is an error; otherwise the normalised results.
   */
  function FetchRankingsFromApi(upstream: Upstream): (r: Result<MatchResults>)
    ensures r.Success? <==> upstream.Reply? && StatusOk(upstream.status) && upstream.payload.Rankings?
    ensures upstream.Reply? && !StatusOk(upstream.status) ==>
      r == Failure("API request failed: " + IntToString(upstream.status))
    ensures r.Success? ==> r.value.rankings == MapRows(upstream.payload.rows)
  {
    match upstream
    case NetworkError(msg) => Failure(msg)
    case Reply(status, payload) =>
      if !StatusOk(status) then Failure("API request failed: " + IntToString(status))
      else match payload
        case Unparseable => Failure("response body is not JSON")
        case NoRankings => Failure("response has no rankings list")
        case Rankings(rows) => Success(Normalise(rows))
  }

  /** The `MatchResults` built from an upstream rankings list. */
  function Normalise(rows: seq<FtcTeamRanking>): (m: MatchResults)
    ensures |m.rankings| == m.totalTeams == |rows|
    ensures forall i :: 0 <= i < |rows| ==> m.rankings[i] == ToRankingData(rows[i])
    ensures m.eventName == "Iowa League Rankings" && m.startDate == "2025-09-01" && m.venue == "Acropolis League"
    ensures FindUpstreamTeam(rows).None? ==> m.rank == 0 && m.wins == 0 && m.losses == 0 && m.ties == 0
    ensures FindUpstreamTeam(rows).Some? ==>
      var t := rows[FindUpstreamTeam(rows).value];
      m.rank == t.rank && m.wins == t.wins && m.losses == t.losses && m.ties == t.ties
  {
    var team := FindUpstreamTeam(rows);
    MatchResults(
      "Iowa League Rankings", "2025-09-01", "Acropolis League",
      if team.Some? then rows[team.value].rank else 0,
      |rows|,
      if team.Some? then rows[team.value].wins else 0,
      if team.Some? then rows[team.value].losses else 0,
      if team.Some? then rows[team.value].ties else 0,
      MapRows(rows))
  }

  /**
   * `getRankings()` as a function of the cache contents: what it returns,
   * whether it called upstream, and the cache contents afterwards.
   */
  datatype RankingsStep = RankingsStep(
    result: Option<MatchResults>, fetched: bool,
    entries: map<string, Cache.Entry<MatchResults>>)

  function GetRankingsStep(entries: map<string, Cache.Entry<MatchResults>>, now: int, localOffset: int, upstream: Upstream)
    : (s: RankingsStep)
    ensures s.result.Some? ==> |s.result.value.rankings| > 0
  {
    var cached := Cache.Read(entries, RankingsCacheKey, now);
    var afterRead := Cache.AfterRead(entries, RankingsCacheKey, now);
    if cached.Some? && |cached.value.rankings| > 0 then
      RankingsStep(cached, false, afterRead)
    else match FetchRankingsFromApi(upstream)
      case Success(data) =>
        if |data.rankings| > 0 then
          RankingsStep(Some(data), true, Cache.Put(afterRead, RankingsCacheKey, data, now, localOffset))
        else RankingsStep(None, true, afterRead)
      case Failure(_) => RankingsStep(None, true, afterRead)
  }

  /** A fresh, non-empty cached value is returned as is, without calling upstream. */
  lemma CachedRankingsServed(entries: map<string, Cache.Entry<MatchResults>>, now: int, localOffset: int, upstream: Upstream)
    requires RankingsCacheKey in entries && now <= entries[RankingsCacheKey].expiresAt
    requires |entries[RankingsCacheKey].data.rankings| > 0
    ensures GetRankingsStep(entries, now, localOffset, upstream)
         == RankingsStep(Some(entries[RankingsCacheKey].data), false, entries)
  {
  }

  /** Any upstream failure gives null and leaves the cache as the read left it. */
  lemma UpstreamFailureGivesNull(entries: map<string, Cache.Entry<MatchResults>>, now: int, localOffset: int, upstream: Upstream)
    requires FetchRankingsFromApi(upstream).Failure?
    ensures var s := GetRankingsStep(entries, now, localOffset, upstream);
      s.entries == Cache.AfterRead(entries, RankingsCacheKey, now)
      && (s.result.None? <==> s.fetched)
  {
  }

  /** An upstream reply with an empty list gives null and is not cached. */
  lemma EmptyUpstreamNotCached(entries: map<string, Cache.Entry<MatchResults>>, now: int, localOffset: int, status: int)
    requires StatusOk(status)
    requires Cache.Read(entries, RankingsCacheKey, now).None?
    ensures GetRankingsStep(entries, now, localOffset, Reply(status, Rankings([])))
         == RankingsStep(None, true, Cache.AfterRead(entries, RankingsCacheKey, now))
  {
  }

  /** A successful non-empty fetch is cached and served by the next read within the lifetime. */
  lemma FetchedRankingsCached(entries: map<string, Cache.Entry<MatchResults>>, now: int, localOffset: int,
                              status: int, rows: seq<FtcTeamRanking>, later: int, other: Upstream)
    requires Cache.Read(entries, RankingsCacheKey, now).None?
    requires StatusOk(status) && rows != []
    requires now <= later <= now + Cache.CacheTtl(now, localOffset)
    ensures var s := GetRankingsStep(entries, now, localOffset, Reply(status, Rankings(rows)));
      s.result == Some(Normalise(rows))
      && GetRankingsStep(s.entries, later, localOffset, other).result == Some(Normalise(rows))
      && !GetRankingsStep(s.entries, later, localOffset, other).fetched
  {
  }

  /** `getRankings()` over the module-level cache. */
  method GetRankings(store: Cache.CacheStore<MatchResults>, now: int, localOffset: int, upstream: Upstream)
    returns (r: Option<MatchResults>, fetched: bool)
    requires store.Valid()
    modifies store
    ensures store.Valid()
    ensures var s := GetRankingsStep(old(store.entries), now, localOffset, upstream);
      r == s.result && fetched == s.fetched && store.entries == s.entries
  {
    var cached := store.Get(RankingsCacheKey, now);
    if cached.Some? && |cached.value.rankings| > 0 {
      return cached, false;
    }
    fetched := true;
    var data := FetchRankingsFromApi(upstream);
    if data.Success? && |data.value.rankings| > 0 {
      store.Set(RankingsCacheKey, data.value, now, localOffset);
      return Some(data.value), fetched;
    }
    return None, fetched;
  }

  /** The index of the first table row whose `teamNumber` is "24358". */
  function FindOurRow(rows: seq<RankingData>): (r: Option<nat>)
    ensures r.Some? ==> r.value < |rows| && rows[r.value].teamNumber == TeamNumber
    ensures r.Some? ==> forall j :: 0 <= j < r.value ==> rows[j].teamNumber != TeamNumber
    ensures r.None? <==> forall j :: 0 <= j < |rows| ==> rows[j].teamNumber != TeamNumber
  {
    if rows == [] then None
    else if rows[0].teamNumber == TeamNumber then Some(0)
    else match FindOurRow(rows[1..])
      case None => None
      case Some(k) => Some(k + 1)
  }

  /** `getTeamStats()` given what `getRankings()` returned. */
  function TeamStatsOf(rankings: Option<MatchResults>): (r: Option<TeamStats>)
    ensures r.None? <==> rankings.None? || FindOurRow(rankings.value.rankings).None?
    ensures r.Some? ==>
      var m := rankings.value;
      var row := m.rankings[FindOurRow(m.rankings).value];
      && r.value.rank == m.rank && r.value.totalTeams == m.totalTeams
      && r.value.wins == m.wins && r.value.losses == m.losses && r.value.ties == m.ties
      && r.value.record == RecordString(m.wins, m.losses, m.ties)
      && r.value.avgAuto == row.autoScore && r.value.avgTeleOp == row.driverScore
      && r.value.avgEndgame == row.endScore && r.value.totalPoints == row.totalPoints
      && r.value.matchesPlayed == row.matchesPlayed
  {
    match rankings
    case None => None
    case Some(m) =>
      match FindOurRow(m.rankings)
      case None => None
      case Some(i) =>
        var row := m.rankings[i];
        Some(TeamStats(m.rank, m.totalTeams, RecordString(m.wins, m.losses, m.ties),
          m.wins, m.losses, m.ties,
          row.autoScore, row.driverScore, row.endScore, row.totalPoints, row.matchesPlayed))
  }

  /** The row `getTeamStats` picks in normalised results is the upstream row of the team. */
  lemma {:induction false} OurRowIsUpstreamRow(rows: seq<FtcTeamRanking>)
    ensures FindOurRow(MapRows(rows)) == FindUpstreamTeam(rows)
  {
    if rows != [] {
      assert MapRows(rows)[1..] == MapRows(rows[1..]);
      OurRowIsUpstreamRow(rows[1..]);
    }
  }

  /**
   * For normalised results the statistics are those of the team's own upstream
   * row, with the number of rows as the team count.
   */
  lemma TeamStatsOfNormalised(rows: seq<FtcTeamRanking>)
    ensures var s := TeamStatsOf(Some(Normalise(rows)));
      (s.None? <==> forall j :: 0 <= j < |rows| ==> rows[j].teamNumber != 24358)
      && (s.Some? ==> var t := rows[FindUpstreamTeam(rows).value];
            s.value.rank == t.rank && s.value.totalTeams == |rows|
            && s.value.wins == t.wins && s.value.losses == t.losses && s.value.ties == t.ties
            && s.value.record == RecordString(t.wins, t.losses, t.ties)
            && s.value.avgAuto == t.sortOrder1 && s.value.avgTeleOp == t.sortOrder2
            && s.value.avgEndgame == t.sortOrder3 && s.value.totalPoints == t.sortOrder4
            && s.value.matchesPlayed == t.matchesPlayed)
  {
    OurRowIsUpstreamRow(rows);
    forall j | 0 <= j < |rows| {
      TeamNumberMatch(rows[j].teamNumber);
    }
  }

  /** `getTeamStats()` over the module-level cache. */
  method GetTeamStats(store: Cache.CacheStore<MatchResults>, now: int, localOffset: int, upstream: Upstream)
    returns (r: Option<TeamStats>)
    requires store.Valid()
    modifies store
    ensures store.Valid()
    ensures r == TeamStatsOf(GetRankingsStep(old(store.entries), now, localOffset, upstream).result)
  {
    var rankings, _ := GetRankings(store, now, localOffset, upstream);
    r := TeamStatsOf(rankings);
  }

  /**
   * `getAuthHeader()`: the placeholder when no API key is set, otherwise
   * "Basic " and the Base64 of "username:key"; an unset or empty username
   * falls back to the default. `base64` is the encoder `Buffer` provides.
   */
  function AuthHeader(username: Option<string>, apiKey: Option<string>, base64: string -> string): (h: string)
    ensures apiKey.None? || apiKey.value == "" ==> h == "Basic placeholder"
    ensures apiKey.Some? && apiKey.value != "" ==>
      var user := if username.Some? && username.value != "" then username.value else DefaultUsername;
      h == "Basic " + base64(user + ":" + apiKey.value)
  {
    var user := if username.Some? && username.value != "" then username.value else DefaultUsername;
    if apiKey.None? || apiKey.value == "" then "Basic placeholder"
    else "Basic " + base64(user + ":" + apiKey.value)
  }
}
