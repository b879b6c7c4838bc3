# Ragnarok FTC website: a Dafny model of its logic

This project models the logic behind the website of FIRST Tech Challenge team
24358 Ragnarok, written in Dafny. The site has two generations. The Next.js
application has:

- a server-side cache whose time-to-live depends on the weekday;
- the client that fetches league rankings from the FTC Events API;
- three API routes;
- the match-group and rankings-table components;
- the member and achievement cards;
- the team's joke points page;
- the brand and resources pages;
- the schema.org and page-metadata builders;
- the sitemap.

The older static site has a results script and a template script that
injects the navigation bar.

Each source file is one module, and each module follows the source's style:

- Pure code is written as datatypes, functions and lemmas.
- Code that updates state becomes a class whose methods have `modifies`
  clauses. Examples are the module-level cache map, the points page's React
  state and the injected navigation bar.
- Code that counts in a loop becomes a method with loop invariants. Examples
  are the win/loss/tie tally and the point-type set.

Most operations are paired with a partner: a round trip back to their input,
an invariant they keep, or a reference definition they are proved against.

Three modules hold shared helpers:

- `Wrappers` defines `Option` and `Result`.
- `Text` models the JavaScript string operations the site uses:
  - number-to-string conversion with `${n}`;
  - `parseInt`;
  - `split` on one character and on `/\s+/`;
  - `includes`;
  - ASCII `toLowerCase` and capitalisation;
  - code-point string order.
- `Sequences` defines stable insertion sort, filter and `find`.

## Model

| member | source | states |
|---|---|---|
| Text.IntToString | js/results.js:27-28 | `${n}` of an integer: it is non-empty, and it starts with '-' exactly for negative numbers |
| Text.NatToStringValue | js/results.js:27-28 | the decimal digits of a natural number read back as that number |
| Text.IntToStringInjective | js/results.js:27-28 | two integers print the same exactly when they are equal |
| Text.Tenths | app/points/page.tsx:16 | `Math.round(10·n/d)`: the quotient rounded half up, as a two-sided bound |
| Text.ParseInt | components/AchievementCard.tsx:42-43 | `parseInt`: fails exactly when no digit follows the optional blanks and sign |
| Text.DigitPrefix | components/AchievementCard.tsx:42-43 | `parseInt` reads the longest run of leading digits and stops at the first non-digit |
| Text.ParseIntOfIntToStringThen | components/AchievementCard.tsx:42-43 | a printed integer followed by anything that does not start with a digit parses back to that integer |
| Text.ParseIntOfIntToString | components/AchievementCard.tsx:42-43 | `parseInt(String(i)) == i` for every integer |
| Text.Split | components/AchievementCard.tsx:41 | `split` on one character: at least one field, and no field contains the separator |
| Text.SplitNoSep | components/AchievementCard.tsx:41 | a string without the separator splits into itself alone |
| Text.SplitAppend | components/AchievementCard.tsx:41 | the first field ends at the first separator |
| Text.SplitLast | js/template.js:105 | `split("/").pop()` is the text after the last slash |
| Text.JoinSplit | components/AchievementCard.tsx:41 | joining fields that lack the separator and splitting again gives the fields back |
| Text.SplitJoin | components/AchievementCard.tsx:41 | joining the fields of a split gives the original string back |
| Text.IntToStringChars | js/results.js:34 | a printed integer holds no space, and a non-negative one holds no dash and only digits |
| Text.ContainsAt | components/RankingsTable.tsx:19-20 | an occurrence at a known position makes `includes` true |
| Text.ToLower | components/RankingsTable.tsx:20 | `toLowerCase` maps every character and keeps the length |
| Text.Capitalize | js/template.js:51-52 | upper-cases the first character and keeps the rest |
| Text.SplitSpaces | app/brand/page.tsx:29 | `split(/\s+/)`: at least one field, and no field contains white space |
| Text.SplitSpacesJoin | app/brand/page.tsx:29 | non-empty words without white space, joined with spaces, split back into those words |
| Text.LexLessTransitive | data/points.ts:59 | the default `sort()` order is transitive |
| Text.LexLessTotal | data/points.ts:59 | any two different strings are ordered one way or the other |
| Text.LexLessIrreflexive | data/points.ts:59 | no string sorts before itself |
| Sequences.Insert | components/RankingsTable.tsx:24-38 | inserting into a sorted list keeps it sorted and adds exactly the new element |
| Sequences.SortBy | components/RankingsTable.tsx:24-38 | `sort` by a numeric key gives a sorted permutation of its input |
| Sequences.InsertStable | components/RankingsTable.tsx:24-38 | inserting puts the new element ahead of every element with its key, and keeps the others' order within each key |
| Sequences.SortByStable | components/RankingsTable.tsx:24-38 | the sort is stable: the elements of each key come out in their input order |
| Sequences.SortedStableUnique | components/RankingsTable.tsx:24-38 | two sorted sequences with the same order within each key are equal, so the stable sort is unique |
| Sequences.SortInPlace | app/points/page.tsx:77 | the in-place array sort leaves exactly the stable sort of the old contents: sorted by the key, a permutation, equal keys in their old order |
| Sequences.SinkLast | app/points/page.tsx:77 | one insertion pass sorts the prefix up to the new element and keeps the order within each key |
| Sequences.Filter | components/RankingsTable.tsx:17-21 | `filter` returns no more elements than it is given, each of them passing the test |
| Sequences.FilterCount | components/RankingsTable.tsx:17-21 | `filter` keeps exactly the elements that pass the test, with their multiplicities |
| Sequences.FilterAppend | components/RankingsTable.tsx:17-21 | `filter` keeps order: what it keeps from an earlier part of the list comes before what it keeps from a later part |
| Sequences.FilterKeepsAll | components/RankingsTable.tsx:17-21 | when every element passes, the filter returns the list unchanged |
| Sequences.FindFirst | lib/ftc-api.ts:89-91 | `find`: the index of the first element that passes, or none when no element passes |
| Cache.PolicyWeekday | lib/cache.ts:24-33 | the weekday is taken at UTC-6 |
| Cache.TtlForWeekday | lib/cache.ts:35-44 | 5 minutes on Saturday, 30 minutes on Friday and Sunday, 24 hours otherwise |
| Cache.TtlOrdering | lib/cache.ts:35-44 | every TTL is positive; Saturday's is the shortest, and weekdays' the longest |
| Cache.CacheTtlIgnoresHostZone | lib/cache.ts:23-45 | the TTL does not depend on the host's time zone, because the local offset cancels out |
| Cache.CacheTtl | lib/cache.ts:23-45 | one of the three lifetimes (5 minutes, 30 minutes, 24 hours), so always positive |
| Cache.Read | lib/cache.ts:50-66 | a hit exactly when the key is present and not yet expired, and a hit returns the stored data |
| Cache.AfterRead | lib/cache.ts:58-63 | reading an expired key deletes that key and nothing else |
| Cache.Put | lib/cache.ts:71-80 | stores the data with the timestamp and an expiry of now + TTL, and leaves other keys as they were |
| Cache.ReadAfterPut | lib/cache.ts:50-80 | a read before the TTL elapses returns what was just stored |
| Cache.ReadAfterExpiry | lib/cache.ts:50-80 | a read after the TTL misses and deletes the entry |
| Cache.Without | lib/cache.ts:61 | removing a key from the insertion order drops exactly that key |
| Cache.WithoutDistinct | lib/cache.ts:61 | the insertion order stays free of duplicates after a delete |
| Cache.CacheStore.constructor | lib/cache.ts:17 | the cache starts empty |
| Cache.CacheStore.Get | lib/cache.ts:50-66 | the result is `Read` on the old state, and the new state is `AfterRead` |
| Cache.CacheStore.Set | lib/cache.ts:71-80 | the new map is `Put`; a new key goes to the end of the iteration order, and an existing key keeps its place |
| Cache.CacheStore.Clear | lib/cache.ts:85-87 | the map and its order become empty |
| Cache.CacheStore.Stats | lib/cache.ts:92-104 | the size equals the number of rows, and the rows follow the insertion order, each with its age and its time to expiry (`expiresAt - now`, in milliseconds) |
| Cache.KeysCount | lib/cache.ts:92-104 | a duplicate-free order that lists each key once has as many entries as the key set |
| Cache.ClearThenStats | lib/cache.ts:85-104 | after a clear, the statistics report size 0 and no rows |
| FtcApi.AuthHeader | lib/ftc-api.ts:46-60 | "Basic placeholder" without a key; otherwise "Basic " plus the Base64 of user:key |
| FtcApi.FetchRankingsFromApi | lib/ftc-api.ts:77-86 | succeeds exactly on an OK status with a rankings payload, throws on a non-OK status, and maps the rows in order |
| FtcApi.FindUpstreamTeam | lib/ftc-api.ts:89-91 | the first upstream row whose number prints as "24358", or none when no row does |
| FtcApi.TeamNumberMatch | lib/ftc-api.ts:89-91 | a number prints as "24358" exactly when it is 24358 |
| FtcApi.ToRankingData | lib/ftc-api.ts:107-117 | each field comes from its upstream field, the team number is printed, and the record reads "W-L-T" |
| FtcApi.RecordStringFields | lib/ftc-api.ts:114 | splitting the record on '-' gives the three printed counts |
| FtcApi.MapRows | lib/ftc-api.ts:107-117 | one ranking row per upstream row, in the same order |
| FtcApi.Normalise | lib/ftc-api.ts:89-121 | the fixed event name, date and venue; rank and W-L-T are taken from our row, or are zero without it; totalTeams equals the number of rows |
| FtcApi.GetRankingsStep | lib/ftc-api.ts:129-161 | a result is never an empty rankings list |
| FtcApi.CachedRankingsServed | lib/ftc-api.ts:133-140 | a live, non-empty cached entry is returned without calling upstream and leaves the cache as it was |
| FtcApi.UpstreamFailureGivesNull | lib/ftc-api.ts:157-160 | an upstream failure on a miss returns null |
| FtcApi.EmptyUpstreamNotCached | lib/ftc-api.ts:148-156 | empty upstream rankings return null and are not cached |
| FtcApi.FetchedRankingsCached | lib/ftc-api.ts:143-152 | fresh non-empty rankings are returned and cached, and a later call within the TTL is served from the cache |
| FtcApi.GetRankings | lib/ftc-api.ts:129-161 | the method's result and the cache's new state are those of `GetRankingsStep` |
| FtcApi.FindOurRow | lib/ftc-api.ts:173-175 | the first row whose team number is "24358"; none exactly when there is no such row |
| FtcApi.TeamStatsOf | lib/ftc-api.ts:166-193 | null exactly when there are no rankings or our row is missing; otherwise rank, W-L-T and scores come from our row |
| FtcApi.OurRowIsUpstreamRow | lib/ftc-api.ts:89-91 | the mapped rows find our team at the same index as the upstream rows |
| FtcApi.TeamStatsOfNormalised | lib/ftc-api.ts:166-193 | over fresh rankings, null exactly when no upstream row is team 24358; otherwise rank, W-L-T, record, the four averages and matches played come from that row, and the team count is the number of rows |
| FtcApi.GetTeamStats | lib/ftc-api.ts:166-193 | the statistics are `TeamStatsOf` over what `getRankings` returns |
| Routes.RankingsGet | app/api/rankings/route.ts:12-49 | 404 "Rankings not available" for null and 200 with the data, both with the shared-cache header; 500 with the error's message and no header when the call throws |
| Routes.RankingsHeaderPlacement | app/api/rankings/route.ts:21-48 | the status is 200, 404 or 500, and the cache header is present exactly on the 200 and 404 responses |
| Routes.RankingsRouteOverFetcher | app/api/rankings/route.ts:12-49 | served through `getRankings`, the route answers only 200 or 404, and a 200 always carries a non-empty table |
| Routes.TeamStatsGet | app/api/team-stats/route.ts:12-51 | 404 when there are no statistics, 200 with them, 500 with the message on a throw |
| Routes.TeamStatsRouteWithoutTeam | app/api/team-stats/route.ts:12-51 | when our team is not in the rankings, the route answers 404 with `available: false` |
| Routes.AchievementsGet | app/api/achievements/route.ts:12-56 | the status is 200 or 500, 500 exactly on a throw; available exactly for a non-empty list, with an error text otherwise |
| MatchGroup.PlayedMatches | components/EventMatchGroup.tsx:20-22 | only played, scored matches, all of them with their multiplicities, sorted by match number; it is the stable sort of the played matches, so equal match numbers keep their input order (Sequences.SortByStable) |
| MatchGroup.Classify | components/EventMatchGroup.tsx:36-47 | win, loss or tie exactly when our alliance's score is above, below or equal to the opponent's |
| MatchGroup.TallyRecord | components/EventMatchGroup.tsx:27-48 | the loop's counters equal the number of wins, losses and ties among the played matches |
| MatchGroup.CountsCoverPlayed | components/EventMatchGroup.tsx:27-48 | wins + losses + ties equals the number of played matches |
| MatchGroup.FlagsAgreeWithTally | components/EventMatchGroup.tsx:186-196 | the per-row `won` and `tied` flags agree with the tally's classification |
| MatchGroup.Won | components/EventMatchGroup.tsx:195 | `won` holds exactly when the tally classifies the match as a win |
| MatchGroup.Tied | components/EventMatchGroup.tsx:196 | `tied` holds exactly when the tally classifies the match as a tie |
| MatchGroup.Opponents | components/EventMatchGroup.tsx:199-203 | exactly the teams of the other alliance, with their multiplicities |
| MatchGroup.Partners | components/EventMatchGroup.tsx:204-208 | exactly the teams of our alliance other than ourselves |
| MatchGroup.EventMatchGroup | components/EventMatchGroup.tsx:20-48 | renders nothing exactly when no match was played; otherwise the played matches and their record |
| Points.Lookup | data/points.ts:65-78 | `points[name]`: absent exactly when no member has that name |
| Points.LookupMember | data/points.ts:65-78 | with distinct names, each member's own name finds that member's scores |
| Points.KeySet | data/points.ts:54-60 | the keys of one member's score record |
| Points.Value | data/points.ts:74-78 | `scores[type] \|\| 0`: the stored value, or 0 when the key is absent |
| Points.CombinedScore | data/points.ts:65-69 | 0 for an unknown name; otherwise the sum of the member's values |
| Points.ScoreForType | data/points.ts:74-78 | 0 for an unknown name or a missing type; otherwise the value stored under that type |
| Points.ValueAppend | data/points.ts:65-69 | adding one new key changes only that key's value |
| Points.SumOverAppend | data/points.ts:65-69 | summing per type over a record extended by one key adds that key's value once |
| Points.SumOverCovers | data/points.ts:65-69 | summing per type over every key in the record equals the record's sum |
| Points.SumOverEmpty | data/points.ts:65-69 | an empty record sums to 0 over any types |
| Points.TypeScoresTotalOver | data/points.ts:65-78 | adding up `getScoreForType` over types is the per-type sum over the member's record |
| Points.CombinedIsSumOfTypeScores | data/points.ts:54-78 | the combined score equals the sum of the scores for each point type |
| Points.TypesOfMeans | data/points.ts:54-60 | a type is listed exactly when some member has it |
| Points.TypesOfMember | data/points.ts:54-60 | every member's types are among all types |
| Points.StrictlySortedDistinct | data/points.ts:59 | a strictly sorted list has no duplicates, as a list made from a Set has none |
| Points.ConsBelow | data/points.ts:59 | putting a smaller element in front keeps a list strictly sorted |
| Points.InsertSorted | data/points.ts:55-59 | adding a new type keeps the list strictly sorted and adds exactly that type |
| Points.AllPointTypes | data/points.ts:54-60 | the nested loops produce every type any member has, each once, in sorted order |
| PointsPage.ShowTenths | app/points/page.tsx:16-21 | a scaled value shown with at most one decimal; the sign shows exactly for negatives |
| PointsPage.Scale | app/points/page.tsx:23-26 | the suffix is T, B, M or K exactly by the magnitude thresholds 1e12, 1e9, 1e6 and 1e3 |
| PointsPage.FormatNumber | app/points/page.tsx:13-28 | the sign is kept; below 1000 the plain number, above it the suffix of its magnitude |
| PointsPage.SmallScoreRoundTrip | app/points/page.tsx:27 | a score below 1000 in magnitude reads back from its label |
| PointsPage.AbsurdMessage | app/points/page.tsx:31-51 | champion messages for rank 1, last-place messages for the last rank, middle messages otherwise; at rank 1 and at the last rank the message follows the |score| thresholds 1e9, 1e6, 1000 (and 100 at rank 1), with PARTICIPATION TROPHY below 100; "IN THE NEGATIVES" only for a last place with -1000 < score < 0; in the middle, 0 gives PERFECTLY MEDIOCRE, any negative GOING DOWNHILL, >= 1000 ON FIRE, otherwise LIVING THE DREAM |
| PointsPage.MessageTiersDisjoint | app/points/page.tsx:31-51 | no message belongs to two tiers |
| PointsPage.Scoreboard | app/points/page.tsx:62-68 | one entry per member, in data order, with its name and scores |
| PointsPage.ScoreboardCombined | app/points/page.tsx:66 | each entry's combined score is the sum of its member's values |
| PointsPage.ScoreOf | app/points/page.tsx:70-75 | the combined score for "combined"; otherwise the type's value, or 0 |
| PointsPage.SortedScoreboard | app/points/page.tsx:61-79 | the stable sort of the scoreboard by descending score for the selected key: in descending order and a permutation of the entries |
| PointsPage.CardAt | app/points/page.tsx:180-250 | the card at index i has rank i+1, its entry's score and label, and the message for that rank |
| PointsPage.Cards | app/points/page.tsx:180-250 | cards for a range of ranks, in order |
| PointsPage.Arrange | app/points/page.tsx:92-98 | below three entries nothing is shown; otherwise ranks 1 to 3 with the podium's total, then ranks 4 to n with the board size, in rank order |
| PointsPage.LayoutAsWritten | app/points/page.tsx:92-282 | as written: the podium's cards are given a total of 3, the other cards the board size |
| PointsPage.ThirdPlaceShamedAsWritten | app/points/page.tsx:282 | as written, a last-place message falls on third place and on the last card and nowhere else; with 4 or more entries third place is not last |
| PointsPage.PageLayout | app/points/page.tsx:92-98 | with every card given the board size, the cards are the whole board in rank order |
| PointsPage.PageLayoutShowsEveryEntry | app/points/page.tsx:92-98 | in the corrected layout every entry is shown at rank position + 1 with its own name, and only the last card gets a last-place message |
| PointsPage.Page.constructor | app/points/page.tsx:54-79 | the combined view, sorted stably by descending combined score, with no clicks, no party mode and no chaos mode |
| PointsPage.Page.Select | app/points/page.tsx:61-79 | choosing a point type re-sorts the board stably by it and leaves the click state alone |
| PointsPage.Page.HandleTitleClick | app/points/page.tsx:82-90 | counts the click; the tenth and later clicks turn on chaos and party mode |
| PointsPage.Page.ChaosTimeout | app/points/page.tsx:88 | the timeout turns chaos mode off and changes nothing else |
| PointsPage.Page.View | app/points/page.tsx:92-282 | as written: nothing below three entries; otherwise every entry in rank order, with last-place messages on third place and on the last card |
| PointsPage.TenClicks | app/points/page.tsx:82-90 | ten clicks from the start turn on chaos and party mode |
| RankingsTable.ColumnKey | components/RankingsTable.tsx:24-38 | ascending rank, or descending auto, teleop or total score |
| RankingsTable.MatchesSearch | components/RankingsTable.tsx:17-21 | an empty term matches every row; a row matches exactly when its team number contains the term or its lower-cased name contains the lower-cased term |
| RankingsTable.Filtered | components/RankingsTable.tsx:17-21 | exactly the rows whose number contains the term or whose lower-cased name contains the lower-cased term |
| RankingsTable.SortedRankings | components/RankingsTable.tsx:17-38 | the stable sort of the filtered rows by the chosen column, so a sorted permutation; empty exactly when nothing matches |
| RankingsTable.EmptySearchKeepsAll | components/RankingsTable.tsx:17-21 | an empty search keeps every row |
| RankingsTable.DigitsContainOnlyDigits | components/RankingsTable.tsx:19 | a term with a non-digit never matches a team number |
| RankingsTable.ToLowerIdempotent | components/RankingsTable.tsx:20 | lower-casing twice is lower-casing once |
| RankingsTable.SearchIgnoresCase | components/RankingsTable.tsx:17-21 | for a numeric team number, upper- and lower-case terms match the same rows |
| RankingsTable.NoTeamsFound | components/RankingsTable.tsx:155-157 | the notice shows exactly when no row matches the search |
| RankingsTable.Highlighted | components/RankingsTable.tsx:109 | a highlighted row's number reads back as 24358 |
| RankingsTable.HighlightIsOurTeam | components/RankingsTable.tsx:109 | a row is highlighted exactly when it is team 24358 |
| MemberCard.FindRole | components/MemberCard.tsx:25-27 | the first historical role for the year, or none |
| MemberCard.RoleFor | components/MemberCard.tsx:21-29 | the current role in 2026; otherwise a non-empty historical role for that year, or the current role |
| MemberCard.PastRoleShown | components/MemberCard.tsx:21-29 | a non-empty past role is shown for its year, and an empty one falls back to the current role |
| MemberCard.YearsOf | components/MemberCard.tsx:32 | the member's years, then 2026 unless they are an alumnus |
| MemberCard.ShowsYearSelector | components/MemberCard.tsx:31-95 | the selector appears with at least one listed year for current members, and at least two for alumni |
| MemberCard.ShowsSocialLinks | components/MemberCard.tsx:123-124 | hidden without social links; shown with a non-empty email or GitHub name; hidden when neither field is a non-empty string (`{}`, `{email: ""}`) |
| MemberCard.SocialAnchors | components/MemberCard.tsx:126-157 | the e-mail anchor ("mailto:" + email) first and the GitHub anchor ("https://github.com/" + handle) last, each exactly when its field is a non-empty string |
| MemberCard.SocialBlockNeverEmpty | components/MemberCard.tsx:123-158 | the social block is rendered exactly when it would hold at least one anchor |
| MemberCard.Card.constructor | components/MemberCard.tsx:18 | the card starts at 2026 |
| MemberCard.Card.SelectYear | components/MemberCard.tsx:97-110 | selecting a listed year makes it the selected year |
| MemberCard.Card.Role | components/MemberCard.tsx:76 | in 2026 the card shows the current role |
| MemberCard.ViewPastRole | components/MemberCard.tsx:21-32 | selecting a past year swaps the current role for that year's role |
| AchievementCard.TrophyColor | components/AchievementCard.tsx:19-27 | gold, silver, or bronze for anything else |
| AchievementCard.BorderColor | components/AchievementCard.tsx:29-37 | the border colour of the same three tiers |
| AchievementCard.ColoursAgree | components/AchievementCard.tsx:19-37 | two icons share a trophy colour exactly when they share a border colour |
| AchievementCard.RangeEndsOf | components/AchievementCard.tsx:41-43 | a "start-end" season year parses back to its two years |
| AchievementCard.RangeEnds | components/AchievementCard.tsx:42-44 | both ends exactly when the first two "-" fields both parse, and then the two parsed values; a season year without a dash has no range, because the second `parseInt` reads NaN |
| AchievementCard.InSeason | components/AchievementCard.tsx:41-45 | no match when either end fails to parse; otherwise a match exactly when start <= year <= end |
| AchievementCard.NonNumericStartMatchesNoYear | components/AchievementCard.tsx:42-45 | "abc-2025" contains no year, since its start reads NaN |
| AchievementCard.MissingEndMatchesNoYear | components/AchievementCard.tsx:42-45 | "2024-" contains no year, since its end reads NaN |
| AchievementCard.InSeasonRange | components/AchievementCard.tsx:44 | a year is in a "start-end" season exactly when it lies between the two |
| AchievementCard.FindSeason | components/AchievementCard.tsx:40-45 | the first season whose range holds the year, or none |
| AchievementCard.SeasonLink | components/AchievementCard.tsx:39-48 | "/seasons/" + slug of that season, null exactly when none matches |
| AchievementCard.View | components/AchievementCard.tsx:71-86 | a link exactly when there is a season link, with that href; the border is the icon's colour |
| AchievementCard.CardLinksToSeason | components/AchievementCard.tsx:39-86 | an achievement inside a season's range links to that season's page |
| SeoConfig.PageMetadata | lib/seo-config.ts:135-180 | canonical and og URL = siteUrl + path (default ""), the site keywords then the page's, the image defaulting to the site image, the same title and description everywhere |
| SeoConfig.CanonicalNamesPath | lib/seo-config.ts:138-153 | the canonical URL is the site URL followed by the path |
| SeoConfig.CanonicalInjective | lib/seo-config.ts:153 | different paths give different canonical URLs |
| SeoConfig.KeywordsKeepSiteKeywords | lib/seo-config.ts:144 | the site keywords come first, followed by the page's own keywords |
| MetadataUtils.CrumbItem | lib/metadata-utils.ts:33-38 | the item at index i has position i+1, the same name, and a URL that reads back after the site URL |
| MetadataUtils.Breadcrumbs | lib/metadata-utils.ts:28-41 | one list item per breadcrumb, in order |
| MetadataUtils.BreadcrumbsRoundTrip | lib/metadata-utils.ts:28-41 | the breadcrumbs can be recovered from the list items |
| MetadataUtils.BreadcrumbsAppend | lib/metadata-utils.ts:28-41 | appending breadcrumbs keeps the earlier items and numbers the new ones on from them |
| MetadataUtils.FaqSchema | lib/metadata-utils.ts:340-355 | one Question per FAQ, in order, with the question as its name and the answer as its text |
| MetadataUtils.FaqSchemaRoundTrip | lib/metadata-utils.ts:340-355 | the FAQs can be recovered from the schema |
| MetadataUtils.PersonSchema | lib/metadata-utils.ts:253-283 | image, description and alumniOf are present exactly when the inputs are non-empty; image is siteUrl + path |
| MetadataUtils.IfTruthy | lib/metadata-utils.ts:311 | a conditional spread: present exactly when the value is non-empty |
| MetadataUtils.SportsEventSchema | lib/metadata-utils.ts:298-334 | endDate, description and url are present exactly when given non-empty; location and organiser are fixed |
| MetadataUtils.AchievementNames | lib/metadata-utils.ts:409 | the achievement names in order |
| MetadataUtils.SportsTeamSchema | lib/metadata-utils.ts:361-413 | aggregateRating exactly for a non-zero ranking; numberOfEmployees exactly for a non-zero count; award exactly for non-empty achievements, listing their names |
| MetadataUtils.ZeroRankingHasNoRating | lib/metadata-utils.ts:395-401 | a ranking of 0 gives no aggregateRating |
| MetadataUtils.ArticleSchema | lib/metadata-utils.ts:419-452 | dateModified defaults to publishDate; the author defaults to the team name; url = siteUrl + url; the image is present exactly when given |
| MetadataUtils.UnmodifiedArticle | lib/metadata-utils.ts:434 | without a modification date, dateModified equals datePublished |
| MetadataUtils.SeasonPageMetadata | lib/metadata-utils.ts:200-237 | title = name + " " + year, canonical = og URL = siteUrl + "/seasons/" + slug, the site keywords plus five season keywords |
| MetadataUtils.SeasonCanonicalInjective | lib/metadata-utils.ts:220 | different slugs give different canonical URLs |
| Sitemap.Routes | app/sitemap.ts:4-38 | the three static routes with their frequencies and priorities, then one route per season, all stamped with `now` |
| Sitemap.RoutesDistinct | app/sitemap.ts:4-38 | with distinct season slugs, no URL appears twice |
| Sitemap.SeasonRouteIsCanonical | app/sitemap.ts:30-35 | a season's sitemap URL is its page's canonical URL |
| Brand.Fixed1 | app/brand/page.tsx:19-20 | `toFixed(1)`: at least one digit, a point and one more digit |
| Brand.UnitOf | app/brand/page.tsx:17-21 | B below 1024, KB below 1024², MB otherwise, with the matching divisor |
| Brand.FormatFileSize | app/brand/page.tsx:17-21 | the label ends with a space and the unit of its size range |
| Brand.BytesLabelReadBack | app/brand/page.tsx:18 | a size below 1 KiB reads back from its label |
| Brand.ScaledLabelReadBack | app/brand/page.tsx:19-20 | the whole part of a KB or MB label is the rounded size, in tenths of the unit, divided by ten |
| Brand.NonQuoteRun | app/brand/page.tsx:27 | `[^"']+`: the longest prefix without quotes |
| Brand.AttrValueFrom | app/brand/page.tsx:27 | the leftmost regex match at or after a position, or none exactly when nothing matches there |
| Brand.AttrValue | app/brand/page.tsx:27 | `match(/name=["']([^"']+)["']/i)`: the capture at the leftmost match, or none exactly when nothing matches |
| Brand.SvgDimensions | app/brand/page.tsx:24-48 | a viewBox with 4 or more fields gives the rounded third and fourth fields; otherwise width and height, which must both be present and numeric |
| Brand.JoinNoQuote | app/brand/page.tsx:27 | numbers joined by spaces hold no quote |
| Brand.NonQuoteRunPrefix | app/brand/page.tsx:27 | the capture stops at the first quote |
| Brand.NoEarlyViewBox | app/brand/page.tsx:27 | no match starts inside an opening "<svg " |
| Brand.ViewBoxTagValue | app/brand/page.tsx:27 | the viewBox attribute of a generated tag captures "0 0 w h" |
| Brand.ViewBoxDecides | app/brand/page.tsx:28-35 | when the viewBox has four fields, it alone decides the dimensions |
| Brand.ViewBoxTagDimensions | app/brand/page.tsx:24-48 | an SVG with viewBox "0 0 w h" measures w × h |
| Brand.Info | app/brand/page.tsx:79-110 | a read failure gives "Unknown" and no dimensions; otherwise the formatted size; only an SVG can carry dimensions, and then exactly the label of its measured dimensions |
| Brand.DimensionsLabel | app/brand/page.tsx:90 | the width, " × ", the height and " px", each at its position |
| Brand.ShowNumberReadBack | app/brand/page.tsx:90 | a number printed in the label (NaN included) holds no space and reads back with `parseInt` |
| Brand.DimensionsWords | app/brand/page.tsx:90 | two space-free numbers around " × " and before " px" split on spaces into the four words |
| Brand.DimensionsLabelReadBack | app/brand/page.tsx:90 | the label splits on spaces into width, "×", height and "px", and the width and height read back |
| Brand.DownloadInfos | app/brand/page.tsx:79-110 | one entry per download, in order |
| Brand.UnknownOnlyOnError | app/brand/page.tsx:99-108 | the size reads "Unknown" exactly when reading the file fails |
| Brand.PdfHasNoDimensions | app/brand/page.tsx:79-110 | the PDF download never shows dimensions |
| Brand.OneSeparatorBetweenGroups | app/brand/page.tsx:393-396 | with correct examples first, the separator appears only before the first incorrect one |
| Brand.SeparatorBefore | app/brand/page.tsx:393-396 | never before the first example; only where correctness changes, and always where a correct example is followed by an incorrect one |
| Brand.LogoExamplesSeparator | app/brand/page.tsx:119-178 | for the page's examples, the separator falls before the third example |
| Resources.Card | app/resources/page.tsx:61-112 | new tab, `rel` and the arrow exactly for an external non-mail link; the mail icon exactly for mailto; the icon exactly when it is named and known; the category's colours |
| Resources.IsExternal | app/resources/page.tsx:62-64 | external exactly when the URL starts with "http" and does not contain ragnarokftc.com |
| Resources.IsEmail | app/resources/page.tsx:65 | exactly the URLs whose first seven characters are "mailto:" |
| Resources.EmailNeverExternal | app/resources/page.tsx:62-65 | a mailto link is never external |
| Resources.NewTabExactlyWhenExternal | app/resources/page.tsx:62-75 | the new tab and the arrow depend on `isExternal` alone, and no card shows both icons |
| Resources.OwnSiteStaysInTab | app/resources/page.tsx:62-64 | a link anywhere on ragnarokftc.com opens in the same tab |
| Resources.CategoryColorsDistinct | app/resources/page.tsx:11-16 | each category has its own colour classes |
| Resources.Grid | app/resources/page.tsx:56-61 | one card per resource, in order; narrowed exactly when there is exactly one resource |
| LegacyResults.TeamCell | js/results.js:37-38 | the team number and a space, then the name, or nothing for a missing or empty name |
| LegacyResults.MatchData.constructor | js/results.js:2-4 | keeps the team number |
| LegacyResults.MatchData.FormatMatch | js/results.js:33-45 | the "Q-" match label and the "red - blue" score label (read back by MatchLabelReadBack and ScoreLabelRoundTrip), two red and two blue team cells, and the highlight set to the team number |
| LegacyResults.MatchData.ParseMatchData | js/results.js:17-47 | the event name and venue, the "rank of total" ranking and the "W-L-T" record labels (read back by RankingLabelRoundTrip and RecordLabelRoundTrip), and one row per match in order, each highlighting the team |
| LegacyResults.NewMatchDisplay | js/results.js:52 | the page's object highlights "24358" |
| LegacyResults.MatchLabelReadBack | js/results.js:33 | `MatchLabel` is "Q-" then the match number, which reads back |
| LegacyResults.ScoreLabelRoundTrip | js/results.js:34 | `ScoreLabel` splits into red score, "-" and blue score, both read back |
| LegacyResults.RankingLabelRoundTrip | js/results.js:27 | `RankingLabel` splits into rank, "of" and team count, both read back |
| LegacyResults.RecordLabelRoundTrip | js/results.js:28 | `RecordLabel` splits on '-' into wins, losses and ties, all read back |
| LegacyResults.TeamCellReadBack | js/results.js:37-38 | `parseInt` of a team cell is the team number |
| LegacyResults.NamelessCell | js/results.js:37-38 | a missing or empty name leaves the number and a trailing space |
| LegacyResults.CellClass | js/results.js:84-100 | dark exactly when the cell contains the highlight; red cells red, blue cells blue |
| LegacyResults.OwnCellIsDark | js/results.js:84-100 | our own cell is dark whatever the name |
| LegacyResults.LongerNumberIsDarkToo | js/results.js:84-100 | team 124358's cell is dark too, because `includes` is a substring test |
| Template.SectionHref | js/template.js:44-50 | "#" + section or "index.html#" + section; the bare fragment exactly when the path contains "index.html" |
| Template.NavLinks | js/template.js:40-63 | the five section links in order, then Members and Results |
| Template.SectionLabels | js/template.js:51-52 | the labels are Home, About, Achievements, Robots and Contact |
| Template.CurrentPage | js/template.js:104-105 | the last path segment, or "index.html" when it is empty |
| Template.CurrentPageIsFileName | js/template.js:104-105 | a path ending in a file names that file |
| Template.DirectoryIsIndex | js/template.js:104-105 | a path ending in "/" is the index page |
| Template.LookupTarget | js/template.js:108-118 | never empty; the current page off the home page or without a hash; the hash itself, unchanged, on the home page |
| Template.ActiveIndex | js/template.js:108-118 | `querySelector`: the first link whose href is the target, or none |
| Template.ActiveIndexIs | js/template.js:108-118 | the first matching link is the active one |
| Template.SectionHrefNotPage | js/template.js:44-50 | a section link never equals a plain page name |
| Template.SubpageLinkActive | js/template.js:104-118 | on members.html or results.html, that page's own link is active |
| Template.SectionsDistinct | js/template.js:40 | the section names are distinct |
| Template.RootFragmentMarksNothing | js/template.js:44-50 | at "/" with a section hash, as written, no link is marked active |
| Template.CorrectedTarget | js/template.js:108-112 | on the home page a "#section" hash looks for the href that section's link was built with; elsewhere the same as the program's lookup |
| Template.FragmentMarksItsSection | js/template.js:108-112 | with the corrected lookup, every section hash marks its own link on the index page |
| Template.Navbar.Inject | js/template.js:84-118 | the links of the path, with at most one marked active (the first whose href is the program's lookup target), and a collapsed menu |
| Template.Navbar.TogglerClick | js/template.js:121-131 | toggles "show" and leaves everything else |
| Template.Navbar.LinkClick | js/template.js:134-142 | removes "show" whatever the menu's state |
| Template.ToggleTwiceThenClick | js/template.js:121-142 | two toggles then a link click leave the menu closed and otherwise as it was |

## Left out

- Network I/O is not modelled. The upstream response of the FTC Events API and the JSON file of the older results page are inputs.
- The file system and framework caching are not modelled. `statSync`, `readFileSync` and `unstable_cache` on the brand page become a per-path status with an optional size and optional content.
- The clock is a parameter. `now` and the host's offset in minutes are inputs, and daylight saving time is not modelled.
- Date formatting is not modelled. This covers `toLocaleDateString`, `lastUpdated` and the sitemap's `lastModified`, which is the `now` parameter.
- Scores, sizes and rankings are integers. Floating-point averages, the OPR display and `toFixed(1)` of scores in the rankings table are not modelled.
- Brand.SvgDimensions: `parseFloat` followed by `Math.round` is an arbitrary `measure` function, where `None` stands for NaN. The viewBox branch passes NaN through, as the source does.
- Brand.ViewBoxTagDimensions: stated for a `measure` that reads the two numerals back, not for every decimal parser.
- Brand.AttrValue: the `width=` pattern also matches inside `stroke-width=`, and the model keeps that.
- FtcApi.AuthHeader: Base64 is a parameter. RFC 4648 is not modelled.
- `getAchievements` is not part of this model. It is not defined in the files shown, so only the achievements route's handling of its result is modelled.
- Text.ToLower and Text.SplitSpaces: case folding covers ASCII letters only, and `\s` covers the ASCII blanks only.
- Text.ParseInt: hexadecimal and other radices of `parseInt` are not modelled. Strings are sequences of code points, not UTF-16 units.
- Timers and UI effects are not modelled: animations, confetti, particles, `animateNumber`, hover state, scroll and resize listeners. The chaos reset after ten seconds is the separate `ChaosTimeout` method.
- PointsPage.Page: the empty scoreboard before the first effect runs is not modelled. The constructor builds the sorted board at once.
- The captions and images of the logo examples are not modelled. Only their `isCorrect` flags are kept.
- Resources.Card: `iconMap` is a fixed set of names. Names inherited from the object prototype are not looked up.
- The constant page-metadata builders are not part of this model: the members, results, resources and brand page metadata (lib/metadata-utils.ts:47-194).
- Concurrent requests sharing the module-level cache are not modelled. The model is single-threaded.
- The `isExpanded` toggle of the match group is UI state and is not modelled.
- Text.LexLess: strings are compared by code point. JavaScript's default `sort()` compares UTF-16 code units, and the two orders differ for characters above U+FFFF.
- Sequences.Filter: its own contract gives only the size bound and that every kept element passes. Sequences.FilterCount states the multiplicities and Sequences.FilterAppend the order, as separate lemmas, so that proofs about `Filter` stay small.
- MatchGroup.Opponents and MatchGroup.Partners: their contracts give the teams and their multiplicities. The order they keep is that of `filter`, which Sequences.FilterAppend states once.
- PointsPage.Page: the board is stated as the stable sort in the constructor's and `Select`'s contracts. The class invariant keeps only that the board is a permutation in descending order.

## Findings

| source | as written | input that shows it | evidently intended | confidence | as-written member | corrected member |
|---|---|---|---|---|---|---|
| app/points/page.tsx:282 | the podium card computes its message with `total` fixed at 3 | a scoreboard of 4 or more entries: the third-place card gets a last-place message | messages use the real number of entries, so only the last card is shamed | high, not executed | PointsPage.ThirdPlaceShamedAsWritten | PointsPage.PageLayoutShowsEveryEntry |
| js/template.js:44-50 | at "/" the section links are "index.html#x", but the lookup searches for the bare hash "#x" | pathname "/" with hash "#about": no link is marked active | the hash marks its section's link on the home page, whatever its URL form | medium, not executed | Template.RootFragmentMarksNothing | Template.FragmentMarksItsSection |
