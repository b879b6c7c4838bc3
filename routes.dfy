/**
 * The three GET handlers under app/api/: each awaits one data function and
 * turns its result, or what it threw, into a status, a JSON body and an
 * optional Cache-Control header.
 */
module Routes {
  import opened Wrappers
  import opened FtcApi
  import Cache

  const PublicCaching: string := "public, s-maxage=300, stale-while-revalidate=600"

  /** What a `catch` clause receives: an `Error` with its message, or any other thrown value. */
  datatype Thrown = ErrorObject(message: string) | OtherValue

  /** The awaited call either returned a value or threw. */
  datatype Call<T> = Returned(value: T) | Threw(thrown: Thrown)

  /** `NextResponse.json(body, {status, headers})`; the default status is 200. */
  datatype Response<B> = Response(status: int, body: B, cacheControl: Option<string>)

  /** The `{error, available: false, message?}` body of the error paths. */
  datatype ErrorBody = ErrorBody(error: string, available: bool, message: Option<string>)

  datatype RankingsBody = RankingsJson(results: MatchResults) | RankingsError(err: ErrorBody)

  datatype TeamStatsBody = TeamStatsJson(stats: TeamStats) | TeamStatsError(err: ErrorBody)

  /** `{error?, available, achievements, message?}`. */
  datatype AchievementsBody<A> = AchievementsBody(
    error: Option<string>, available: bool, achievements: seq<A>, message: Option<string>)

  /** `error instanceof Error ? error.message : "Unknown error"`. */
  function MessageOf(t: Thrown): string {
    match t
    case ErrorObject(m) => m
    case OtherValue => "Unknown error"
  }

  /** `GET /api/rankings`. */
  function RankingsGet(call: Call<Option<MatchResults>>): (r: Response<RankingsBody>)
    ensures call.Returned? && call.value.None? ==>
      r == Response(404, RankingsError(ErrorBody("Rankings not available", false, None)), Some(PublicCaching))
    ensures call.Returned? && call.value.Some? ==>
      r == Response(200, RankingsJson(call.value.value), Some(PublicCaching))
    ensures call.Threw? ==>
      r == Response(500, RankingsError(ErrorBody("Failed to fetch rankings", false, Some(MessageOf(call.thrown)))), None)
  {
    match call
    case Threw(t) =>
      Response(500, RankingsError(ErrorBody("Failed to fetch rankings", false, Some(MessageOf(t)))), None)
    case Returned(None) =>
      Response(404, RankingsError(ErrorBody("Rankings not available", false, None)), Some(PublicCaching))
    case Returned(Some(m)) =>
      Response(200, RankingsJson(m), Some(PublicCaching))
  }

  /** The header is present exactly on the 200 and 404 responses. */
  lemma RankingsHeaderPlacement(call: Call<Option<MatchResults>>)
    ensures var r := RankingsGet(call);
      (r.status == 200 || r.status == 404 || r.status == 500)
      && (r.cacheControl.Some? <==> r.status != 500)
      && (r.cacheControl.Some? ==> r.cacheControl.value == PublicCaching)
  {
  }

  /** `GET /api/team-stats`. */
  function TeamStatsGet(call: Call<Option<TeamStats>>): (r: Response<TeamStatsBody>)
    ensures call.Returned? && call.value.None? ==>
      r == Response(404, TeamStatsError(ErrorBody("Team stats not available", false, None)), Some(PublicCaching))
    ensures call.Returned? && call.value.Some? ==>
      r == Response(200, TeamStatsJson(call.value.value), Some(PublicCaching))
    ensures call.Threw? ==>
      r == Response(500, TeamStatsError(ErrorBody("Failed to fetch team stats", false, Some(MessageOf(call.thrown)))), None)
  {
    match call
    case Threw(t) =>
      Response(500, TeamStatsError(ErrorBody("Failed to fetch team stats", false, Some(MessageOf(t)))), None)
    case Returned(None) =>
      Response(404, TeamStatsError(ErrorBody("Team stats not available", false, None)), Some(PublicCaching))
    case Returned(Some(s)) =>
      Response(200, TeamStatsJson(s), Some(PublicCaching))
  }

  /** `GET /api/achievements`, for whatever `getAchievements()` resolved to (`None` is null). */
  function AchievementsGet<A>(call: Call<Option<seq<A>>>): (r: Response<AchievementsBody<A>>)
    ensures r.status == 200 || r.status == 500
    ensures r.status == 500 <==> call.Threw?
    ensures r.cacheControl.Some? <==> r.status == 200
    ensures r.body.available <==> call.Returned? && call.value.Some? && call.value.value != []
    ensures r.body.available ==> r.body.achievements == call.value.value && r.body.error.None?
    ensures !r.body.available ==> r.body.achievements == [] && r.body.error.Some?
    ensures call.Threw? ==> r.body.message == Some(MessageOf(call.thrown))
  {
    match call
    case Threw(t) =>
      Response(500, AchievementsBody(Some("Failed to fetch achievements"), false, [], Some(MessageOf(t))), None)
    case Returned(list) =>
      if list.None? || list.value == [] then
        Response(200, AchievementsBody(Some("Achievements not available"), false, [], None), Some(PublicCaching))
      else
        Response(200, AchievementsBody(None, true, list.value, None), Some(PublicCaching))
  }

  /**
   * Served through `getRankings()`, the rankings route never answers 500 and
   * never answers 200 with an empty table.
   */
  lemma RankingsRouteOverFetcher(entries: map<string, Cache.Entry<MatchResults>>, now: int, localOffset: int, upstream: Upstream)
    ensures var r := RankingsGet(Returned(GetRankingsStep(entries, now, localOffset, upstream).result));
      (r.status == 200 || r.status == 404)
      && (r.status == 200 ==> |r.body.results.rankings| > 0)
  {
  }

  /**
   * Upstream rankings without the operating team make the team-stats route
   * answer 404, whatever else the list holds.
   */
  lemma TeamStatsRouteWithoutTeam(rows: seq<FtcTeamRanking>)
    requires forall j :: 0 <= j < |rows| ==> rows[j].teamNumber != 24358
    ensures TeamStatsGet(Returned(TeamStatsOf(Some(Normalise(rows))))).status == 404
    ensures TeamStatsGet(Returned(TeamStatsOf(Some(Normalise(rows))))).body.err.available == false
  {
    TeamStatsOfNormalised(rows);
  }
}
