# Fantasy football pipeline — a verified model

This project is a Dafny model of the deterministic core of a Fantasy Premier League data pipeline. The pipeline has four parts:

- **Raw ingestion** (`fpl_data_ingestion/handler.py`) copies three things into four raw tables of the database `fantasy_football`:
  - the bootstrap data (teams, players, gameweeks);
  - every player's per-round history;
  - optionally one classic league, with its managers and their picks for every gameweek up to the current one.
- **The weekly update** (`fpl_weekly_update/handler.py`) writes team, gameweek, player, manager and per-gameweek performance nodes. The manager nodes carry analytics computed from each manager's weekly history: mean, standard deviation, a consistency score, value growth and transfers.
- **The API client** (`src/fpl_client.py`) builds endpoint URLs, makes each request with a fixed delay after it, and finds the current gameweek.
- **The dashboard** (`streamlit_app.py`) reads the nodes back. It selects a manager's performance nodes by external-id prefix, parses gameweek numbers out of external ids, and computes transfer success rates.

## How the world is modelled

- **Fetches.** Everything the upstream API would return is one `FplApi.Upstream` value:
  - the bootstrap payload, or none;
  - maps from ids to player summaries, league standings, entries, entry histories and picks.

  A request whose id is missing from its map stands for a request that raised: an HTTP error, a failed connection or bad JSON.
- **Writes.** Requests and sink writes are returned, in order, as a log of effects. The weekly update logs `Get(url)` and `Apply(nodes)`. The ingestion logs `Get(request)` and `Insert(table, rows)`: a request names the resource, and `Ingestion.RequestUrl` gives the URL the handler builds for it. A table is one of the four raw tables of `fantasy_football`, named by `Table.Name()`. A row keeps the record it was built from, and its key is that record's external id (`Keys.KeyOf`). The handlers change no heap state. Each handler method is proved equal to a reference function of the upstream, such as `Ingestion.RunLog`/`RunReport` or `WeeklyUpdate.CompletedLog`/`CompletedStats`. The properties are lemmas about those functions.
- **The client.** `FplClient.Client` is a class. Its two fields (`rateLimitDelay`, `userAgent`) are set by the constructor and never updated. Each getter takes the server as a function from URL to reply and returns the outcome plus a trace of `Request`/`Sleep` steps.
- **Dashboard listings.** The node listings the dashboard reads are sequences of nodes. A node with absent or empty properties has `props == None`.
- **Square root.** `np.std` needs a square root over reals. It is a parameter `sqrt: real -> real`, and the lemmas that need its meaning require `Analytics.RootAt(sqrt, x)`.
- **Numbers.** Python ints are Dafny `int`. Prices and values show up as tenths: `Analytics.Tenths(v)` is `v / 10.0` over `real`. The text fields `form`, `selected_by_percent` and `points_per_game` stay text.

The weekly update does not use the API client: it builds its URLs inline. So does the ingestion function. Both models therefore log the URLs the handlers build, stated with the same `Endpoints` path functions, which give the same strings.

Modules, one per file: `Wrappers`, `Strings` (int formatting and parsing, `str.split`, `str.startswith`, `str.isdigit`), `FplApi`, `Endpoints`, `Keys` (the external-id and row-key scheme), `FplClient`, `Analytics`, `WeeklyUpdate`, `Ingestion`, `Dashboard`.

## Model

| member | source | states |
|---|---|---|
| Endpoints.Url | src/fpl_client.py:39 | The URL is the base URL, a slash, then exactly the endpoint. |
| Endpoints.UrlInjective | src/fpl_client.py:39 | Two URLs are equal exactly when their endpoints are: the base URL prefix loses nothing. |
| Endpoints.PathInjective | src/fpl_client.py:45-132 | Two resources have the same endpoint path exactly when they are the same request. This holds across bootstrap, player summary, standings, entry, history, picks and fixtures. Pages 0 and 1 of a league count as one request, and so do falsy and absent fixture filters. |
| Endpoints.StandingsPathInjective | src/fpl_client.py:77-80 | Equal standings paths mean the same league and the same effective page: a page of 1 or less gives no query suffix. |
| Endpoints.EntryPathsInjective | src/fpl_client.py:82-117 | The entry, history and picks paths of entries never coincide unless they are the same request. |
| FplApi.Fetch | src/fpl_client.py:40-43 | A fetch succeeds exactly when the upstream has the id, and returns its payload. |
| FplApi.FirstCurrentFrom | src/fpl_client.py:142-145 | The result is the index of the first event at or after `from` that is flagged current. None means there is no such event. |
| FplApi.CurrentEvent | modules/fantasy-football/functions/fpl_data_ingestion/handler.py:128 | The result is an event of the list that is flagged current. None means no event is flagged. |
| FplApi.CurrentEventIsFirst | src/fpl_client.py:142-144 | When some event is current, the current event is found at or before it. |
| FplClient.Outcome | src/fpl_client.py:39-43 | A request succeeds exactly when the server answers, with a status below 400 or from 600 up, and a JSON body. The value is that body. A 4xx/5xx status fails as an HTTP error carrying the status. |
| FplClient.Steps | src/fpl_client.py:40-42 | The request comes first. The delay is waited after it exactly when the status check passes. |
| FplClient.SuccessWaits | src/fpl_client.py:41-43 | Every successful request ends by waiting the delay. |
| FplClient.ErrorStatusDoesNotWait | src/fpl_client.py:41 | An error status raises before the delay: the request is the only step. |
| FplClient.InvalidJsonAfterWait | src/fpl_client.py:42-43 | A non-JSON body fails only after the delay has been waited. |
| FplClient.PacedAppend | src/fpl_client.py:40-42 | Appending a paced trace to one that ends waiting keeps every request preceded by a wait. |
| FplClient.StepsPaced | src/fpl_client.py:40-42 | The trace of one request is paced. |
| FplClient.Client.constructor | src/fpl_client.py:16-27 | The client keeps the given delay and the fixed user agent. |
| FplClient.Client.Default | src/fpl_client.py:16 | The default delay is 0.5 seconds. |
| FplClient.Client.Get | src/fpl_client.py:29-43 | The result is the outcome for `BASE_URL/endpoint`, and the trace is that request's steps with the client's delay. |
| FplClient.Client.GetBootstrapStatic | src/fpl_client.py:45-52 | Requests `bootstrap-static/`. |
| FplClient.Client.GetPlayerSummary | src/fpl_client.py:54-64 | Requests `element-summary/{id}/`. |
| FplClient.Client.GetLeagueStandings | src/fpl_client.py:66-80 | Requests `leagues-classic/{id}/standings/`, plus `?page_standings={page}` exactly when the page is above 1. |
| FplClient.Client.GetEntry | src/fpl_client.py:82-92 | Requests `entry/{id}/`. |
| FplClient.Client.GetEntryHistory | src/fpl_client.py:94-104 | Requests `entry/{id}/history/`. |
| FplClient.Client.GetEntryPicks | src/fpl_client.py:106-117 | Requests `entry/{id}/event/{gw}/picks/`. |
| FplClient.Client.GetFixtures | src/fpl_client.py:119-132 | Requests `fixtures/`, plus `?event={gw}` exactly when the gameweek is truthy (given and non-zero). |
| FplClient.Client.GetCurrentGameweek | src/fpl_client.py:134-145 | Fails exactly when the bootstrap request fails. Otherwise returns the id of the first current event, or None when no event is current. The trace is the bootstrap request's. |
| Strings.IntToString | modules/fantasy-football/functions/fpl_data_ingestion/handler.py:56 | Formatting an int gives a non-empty text of digits and `-`, all digits exactly when the int is non-negative. |
| Strings.IntToStringRoundTrip | streamlit_app.py:138 | Reading back a formatted int gives the int. |
| Strings.IntToStringInjective | modules/fantasy-football/functions/fpl_data_ingestion/handler.py:56 | Two ints format alike exactly when they are equal. |
| Strings.PrefixIntThenSeparator | modules/fantasy-football/functions/fpl_data_ingestion/handler.py:144 | After a common prefix, an int followed by a non-digit separator determines both the int and the rest. |
| Strings.Split | streamlit_app.py:136 | `str.split` gives at least one piece, and joining the pieces with the separator gives back the text. |
| Strings.SplitPiecesHoldNoSeparator | streamlit_app.py:136 | No piece of a split holds the separator. |
| Strings.SplitAt | streamlit_app.py:136 | Splitting at the first occurrence gives the text before it, then the split of the text after it. |
| Strings.FindFrom | streamlit_app.py:136 | The result is the first occurrence of the separator at or after `from`. None means there is none. |
| Keys.KeyOfInjective | modules/fantasy-football/functions/fpl_data_ingestion/handler.py:56-250 | Across the team, player, gameweek, player-round, league, manager, manager-round and performance keys, two records get the same key exactly when they are the same record. |
| Analytics.SquaredDeviation | modules/fantasy-football/functions/fpl_weekly_update/handler.py:141 | The sum of squared deviations is never negative. |
| Analytics.Variance | modules/fantasy-football/functions/fpl_weekly_update/handler.py:141 | The population variance is never negative. |
| Analytics.VarianceZero | modules/fantasy-football/functions/fpl_weekly_update/handler.py:141 | The variance is 0 exactly when all values are equal. |
| Analytics.SquaredDeviationZero | modules/fantasy-football/functions/fpl_weekly_update/handler.py:141 | The squared deviations from a centre sum to 0 exactly when every value equals the centre. |
| Analytics.ConsistencyScore | modules/fantasy-football/functions/fpl_weekly_update/handler.py:142-143 | The clamped score lies in [0, 100]. |
| Analytics.Ratio | modules/fantasy-football/functions/fpl_weekly_update/handler.py:142 | The coefficient of variation is never negative. It is 0 exactly when the spread is 0, and at least 1 exactly when the spread reaches the mean. |
| Analytics.ScoreFull | modules/fantasy-football/functions/fpl_weekly_update/handler.py:143 | The score is 100 exactly when the standard deviation is 0. |
| Analytics.ScoreEmpty | modules/fantasy-football/functions/fpl_weekly_update/handler.py:143 | The score is 0 exactly when the standard deviation reaches the mean. |
| Analytics.ScoreAntitone | modules/fantasy-football/functions/fpl_weekly_update/handler.py:143 | A larger spread never gives a higher score. |
| Analytics.WeeklyPoints | modules/fantasy-football/functions/fpl_weekly_update/handler.py:137 | One entry per week of the history, in order, each with that week's points. |
| Analytics.Analyse | modules/fantasy-football/functions/fpl_weekly_update/handler.py:136-155 | For every non-empty history the mean is the arithmetic mean of the weekly points, and the score lies in [0, 100]. With more than one week and a positive mean, the standard deviation is the root of the population variance and the score is the clamped score of that mean and deviation. Otherwise the deviation is 0. |
| Analytics.AnalyseEmpty | modules/fantasy-football/functions/fpl_weekly_update/handler.py:153-155 | An empty history gives all-zero analytics. |
| Analytics.AnalyseNoSpread | modules/fantasy-football/functions/fpl_weekly_update/handler.py:144-147 | With one week, or a mean that is not positive, the standard deviation and the score are 0 and the mean is still the arithmetic mean. |
| Analytics.AnalyseConsistent | modules/fantasy-football/functions/fpl_weekly_update/handler.py:139-143 | With a spread to measure, the score is 100 exactly when every week has the same points. |
| Analytics.AnalyseInconsistent | modules/fantasy-football/functions/fpl_weekly_update/handler.py:139-143 | With a spread to measure, the score is 0 exactly when the variance reaches the square of the mean. |
| Analytics.AnalyseGrowth | modules/fantasy-football/functions/fpl_weekly_update/handler.py:149-151 | Value growth is the last week's value minus the first week's, in tenths. |
| Analytics.GrowthIgnoresMiddle | modules/fantasy-football/functions/fpl_weekly_update/handler.py:149-151 | Histories with the same first and last values have the same growth. |
| Analytics.AnalyseTransfersAppend | modules/fantasy-football/functions/fpl_weekly_update/handler.py:152 | The analysed transfers of two consecutive stretches of weeks add up. |
| Analytics.AnalyseTransfersMissing | modules/fantasy-football/functions/fpl_weekly_update/handler.py:152 | A further week without an `event_transfers` figure leaves the analysed transfers unchanged. |
| Analytics.TotalTransfersAppend | modules/fantasy-football/functions/fpl_weekly_update/handler.py:152 | The transfer total of two histories joined is the sum of their totals. |
| Analytics.TotalTransfersMissing | modules/fantasy-football/functions/fpl_weekly_update/handler.py:152 | A week without a transfer count adds nothing. |
| WeeklyUpdate.LeagueId | modules/fantasy-football/functions/fpl_weekly_update/handler.py:20 | A truthy payload id wins. Otherwise the environment value is used, and otherwise `sl9tyc`. |
| WeeklyUpdate.PositionName | modules/fantasy-football/functions/fpl_weekly_update/handler.py:82-97 | Codes 1 to 4 name GK, DEF, MID and FWD. Every other code gives `Unknown`. |
| WeeklyUpdate.PlayerNodeLinks | modules/fantasy-football/functions/fpl_weekly_update/handler.py:96-98 | A player node's team link is the external id of its own team's node and of no other team's, and its price times ten gives back the API's cost. |
| WeeklyUpdate.CollectTeamNodes | modules/fantasy-football/functions/fpl_weekly_update/handler.py:32-46 | One team node per team, in order. |
| WeeklyUpdate.CollectGameweekNodes | modules/fantasy-football/functions/fpl_weekly_update/handler.py:54-71 | One gameweek node per event, in order. |
| WeeklyUpdate.CollectPlayerNodes | modules/fantasy-football/functions/fpl_weekly_update/handler.py:80-105 | One player node per player, in order. |
| WeeklyUpdate.AppendPerformance | modules/fantasy-football/functions/fpl_weekly_update/handler.py:183-202 | Appends one performance node per history row, in order, and keeps what was there. |
| WeeklyUpdate.CollectManagers | modules/fantasy-football/functions/fpl_weekly_update/handler.py:121-202 | Succeeds exactly when every standing's history can be fetched. It then yields one manager node per standing and the performance nodes of all their histories, in order, after one history request per standing. |
| WeeklyUpdate.LoadBootstrap | modules/fantasy-football/functions/fpl_weekly_update/handler.py:31-110 | Applies the team, gameweek and player nodes, each batch only if non-empty, and counts each kind. |
| WeeklyUpdate.Handle | modules/fantasy-football/functions/fpl_weekly_update/handler.py:15-228 | Succeeds exactly when the bootstrap, the league's standings and every history can be fetched, and the log starts with the bootstrap request. On failure, no manager or performance node is written and their counts stay 0. On success, the stats and the log are the completed run's. |
| WeeklyUpdate.BootstrapNodesOnly | modules/fantasy-football/functions/fpl_weekly_update/handler.py:31-110 | The bootstrap phase writes only team, gameweek and player nodes. |
| WeeklyUpdate.OnlyBootstrapNodesAppend | modules/fantasy-football/functions/fpl_weekly_update/handler.py:221-228 | Requests added after the bootstrap phase keep the log free of manager and performance nodes. |
| WeeklyUpdate.PerformanceCount | modules/fantasy-football/functions/fpl_weekly_update/handler.py:183-211 | The performance count is the total number of history rows over all standings. |
| WeeklyUpdate.PerformanceRow | modules/fantasy-football/functions/fpl_weekly_update/handler.py:184-200 | The k-th performance node has id `perf_{e}_gw_{event}` and links to `manager_{e}` and `gameweek_{event}`. It carries that week's points, total points and rank. Its transfers, transfer cost and overall rank are the week's figures, or 0 when missing. Its value and bank are in tenths. |
| WeeklyUpdate.PerformanceKeysDistinct | modules/fantasy-football/functions/fpl_weekly_update/handler.py:186 | Two performance ids are equal exactly when manager and gameweek are. |
| WeeklyUpdate.ManagerUsesFirstRow | modules/fantasy-football/functions/fpl_weekly_update/handler.py:167-170 | A manager node's overall points, rank and team value come from the first history row, whatever later rows hold. |
| WeeklyUpdate.ManagerWithoutHistory | modules/fantasy-football/functions/fpl_weekly_update/handler.py:153-170 | With no history rows, the manager's figures and analytics are 0 and no performance node is made. |
| WeeklyUpdate.StandingsSnoc | modules/fantasy-football/functions/fpl_weekly_update/handler.py:124-202 | Processing one more standing extends the manager nodes, the performance nodes and the requests by exactly that standing's part. |
| Ingestion.LeagueIdOf | modules/fantasy-football/functions/fpl_data_ingestion/handler.py:191-192 | A truthy payload id wins, then a truthy environment value. Otherwise there is no league step. |
| Ingestion.RequestUrlInjective | modules/fantasy-football/functions/fpl_data_ingestion/handler.py:28-32 | Two of the function's requests (bootstrap, player summary at line 137, league, entry, picks) have the same URL exactly when they are the same request. |
| Ingestion.RowKeys | modules/fantasy-football/functions/fpl_data_ingestion/handler.py:56-250 | Each row's key is the handler's text: `team_{id}`, `player_{id}`, `gameweek_{id}`, `player_{p}_gw_{round}`, `league_{id}`, `manager_{e}` and `manager_{e}_gw_{gw}`. |
| Ingestion.FirstMissing | modules/fantasy-football/functions/fpl_data_ingestion/handler.py:214-221 | The result is the index of the first standing whose entry cannot be fetched, or the number of standings if every entry can be. |
| Ingestion.CollectTeamRows | modules/fantasy-football/functions/fpl_data_ingestion/handler.py:53-65 | One `team_{id}` row per team, in order. |
| Ingestion.CollectPlayerRows | modules/fantasy-football/functions/fpl_data_ingestion/handler.py:73-92 | One `player_{id}` row per player, in order. |
| Ingestion.CollectEventRows | modules/fantasy-football/functions/fpl_data_ingestion/handler.py:104-119 | One `gameweek_{id}` row per event, in order. |
| Ingestion.InsertBatches | modules/fantasy-football/functions/fpl_data_ingestion/handler.py:96-99 | The index loop issues one insert per batch of at most 1000 rows, in order. |
| Ingestion.BatchInsertsStep | modules/fantasy-football/functions/fpl_data_ingestion/handler.py:97-98 | The first insert takes `rows[0:1000]`, or all rows when there are fewer, and the rest are the batches of what remains. |
| Ingestion.AppendPlayerRounds | modules/fantasy-football/functions/fpl_data_ingestion/handler.py:142-172 | Appends one `player_{p}_gw_{round}` row per history round, in order, and keeps what was there. |
| Ingestion.CollectStatRows | modules/fantasy-football/functions/fpl_data_ingestion/handler.py:133-179 | Requests every player's summary in order. Collects the rounds of each player whose summary was fetched and skips the others. |
| Ingestion.StatRowsSnoc | modules/fantasy-football/functions/fpl_data_ingestion/handler.py:133-179 | One more player adds exactly that player's rounds, or nothing when its summary cannot be fetched. |
| Ingestion.CollectPicks | modules/fantasy-football/functions/fpl_data_ingestion/handler.py:240-273 | Requests gameweeks 1 to the current one. Inserts a row and counts one for each gameweek whose picks were fetched, and skips the rest. |
| Ingestion.ProcessEntry | modules/fantasy-football/functions/fpl_data_ingestion/handler.py:223-273 | After the entry request, inserts the manager row, then, with a current gameweek, the picks steps. |
| Ingestion.ProcessStandings | modules/fantasy-football/functions/fpl_data_ingestion/handler.py:214-275 | Processes the standings up to the first entry that cannot be fetched, whose request ends the loop. The managers count is that index, and the picks count is the fetched picks of the processed standings. |
| Ingestion.StandingsSnoc | modules/fantasy-football/functions/fpl_data_ingestion/handler.py:214-273 | One more fetched standing extends the effects and the picks count by exactly its part. |
| Ingestion.LoadBootstrap | modules/fantasy-football/functions/fpl_data_ingestion/handler.py:52-124 | Inserts the team rows, the player batches and the event rows, each only if any, and counts each kind. |
| Ingestion.LoadStats | modules/fantasy-football/functions/fpl_data_ingestion/handler.py:128-188 | Only with a current gameweek: the summary requests, then the round rows in batches. The count is the number of round rows. |
| Ingestion.LoadLeague | modules/fantasy-football/functions/fpl_data_ingestion/handler.py:192-237 | A league that cannot be fetched fails the run. Otherwise the league row goes in, `leagues` becomes 1, and the status and counts follow the standings loop. |
| Ingestion.Handle | modules/fantasy-football/functions/fpl_data_ingestion/handler.py:15-290 | The log starts with the bootstrap request. If that fails, the report is an error with all-zero stats. Otherwise the log and report are the run's reference log and report. |
| Ingestion.BatchesFlatten | modules/fantasy-football/functions/fpl_data_ingestion/handler.py:97-99 | The batches, concatenated, are the rows: nothing lost, repeated or reordered. |
| Ingestion.BatchesSizes | modules/fantasy-football/functions/fpl_data_ingestion/handler.py:97-98 | Every batch is non-empty and at most the batch size, and every batch but the last is exactly the batch size. |
| Ingestion.BatchesCount | modules/fantasy-football/functions/fpl_data_ingestion/handler.py:97 | There are no batches exactly when there are no rows, and the batch count is the ceiling of rows over batch size. |
| Ingestion.BatchesOf2500 | modules/fantasy-football/functions/fpl_data_ingestion/handler.py:96-99 | 2500 rows go in three inserts of 1000, 1000 and 500. |
| Ingestion.BatchInsertsRows | modules/fantasy-football/functions/fpl_data_ingestion/handler.py:97-99 | The batch inserts put exactly the batched rows into their table, nothing into any other table, and make no request. |
| Ingestion.PicksRequests | modules/fantasy-football/functions/fpl_data_ingestion/handler.py:241-244 | A manager's picks are requested for gameweeks 1 to the current one, each once, in ascending order. |
| Ingestion.PicksRows | modules/fantasy-football/functions/fpl_data_ingestion/handler.py:241-267 | The picks rows written number the picks counted, at most one per gameweek, and none go to any other table. |
| Ingestion.StandingsLogRows | modules/fantasy-football/functions/fpl_data_ingestion/handler.py:214-222 | The entry request that ends the standings loop writes nothing: every table receives exactly the rows of the standings processed before it. |
| Ingestion.StandingsRows | modules/fantasy-football/functions/fpl_data_ingestion/handler.py:214-267 | The standings write one manager row per standing plus their picks rows into the picks table, and nothing elsewhere. |
| Ingestion.BootstrapRows | modules/fantasy-football/functions/fpl_data_ingestion/handler.py:53-122 | The bootstrap table receives the team rows, then the player rows, then the event rows, and no other table receives anything. |
| Ingestion.StatsRows | modules/fantasy-football/functions/fpl_data_ingestion/handler.py:128-188 | The per-round table receives the rounds of every fetched player, and only when a gameweek is current. |
| Ingestion.LeagueRows | modules/fantasy-football/functions/fpl_data_ingestion/handler.py:199-236 | The league table receives the one league row once the league is fetched, and nothing otherwise. The picks table receives one row per processed manager plus their picks. |
| Ingestion.RunStatsCountRows | modules/fantasy-football/functions/fpl_data_ingestion/handler.py:35-289 | On success and on error alike, each count in the report is the number of rows actually written: bootstrap rows, round rows, league rows, and manager plus picks rows. |
| Ingestion.RunSucceeds | modules/fantasy-football/functions/fpl_data_ingestion/handler.py:45-290 | Once the bootstrap is fetched, the run succeeds exactly when there is no league id, or the league and every one of its entries can be fetched. |
| Ingestion.RunWithoutLeague | modules/fantasy-football/functions/fpl_data_ingestion/handler.py:191-192 | Without a league id, the run succeeds and writes no league, manager or picks row. |
| Ingestion.RunWithoutCurrentGameweek | modules/fantasy-football/functions/fpl_data_ingestion/handler.py:128-129 | Without a current gameweek, no round row is written and the round and picks counts are 0. |
| Ingestion.BootstrapKeysDistinct | modules/fantasy-football/functions/fpl_data_ingestion/handler.py:56-107 | Team, player and gameweek rows share a table, but their keys never collide, and two rows of one kind share a key exactly when their ids match. |
| Ingestion.PicksKeysDistinct | modules/fantasy-football/functions/fpl_data_ingestion/handler.py:225-250 | Manager rows and picks rows share a table, but a manager key is never a picks key, and two picks keys match exactly when manager and gameweek do. |
| Ingestion.PlayerRoundKeysDistinct | modules/fantasy-football/functions/fpl_data_ingestion/handler.py:144 | Two round rows share a key exactly when player and round match. |
| Dashboard.DigitsOrZero | streamlit_app.py:138 | Text that is not all digits reads as 0. |
| Dashboard.FetchPerformanceData | streamlit_app.py:120-152 | A manager id without `_` gives no rows. Otherwise the rows are those of the nodes whose id starts with the manager's prefix and that carry properties, sorted by gameweek: a permutation of them. With the parse as written (`AsWritten`) and a listing of performance ids, every row has gameweek 0. |
| Dashboard.MatchingAsWrittenZero | streamlit_app.py:131-145 | Over a listing of performance ids, every selected row built with the parse as written has gameweek 0. |
| Dashboard.SortCorrect | streamlit_app.py:147-148 | Sorting orders by gameweek and is a permutation. |
| Dashboard.InsertCorrect | streamlit_app.py:148 | Inserting into a sorted sequence keeps it sorted and adds exactly the one row. |
| Dashboard.ManagerPrefix | streamlit_app.py:132 | The manager id `manager_{e}` yields the prefix `perf_{e}_`. |
| Dashboard.PrefixSelectsManager | streamlit_app.py:132 | For every manager and every gameweek, a manager's prefix matches a performance id exactly when the id is that manager's. The trailing `_` keeps `manager_12` off `perf_123_gw_…`. |
| Dashboard.PrefixOnlyOwn | streamlit_app.py:132 | A performance id that starts with `perf_{m}_` belongs to manager m. |
| Dashboard.PrefixOfOwn | streamlit_app.py:132 | A manager's own performance ids all start with its prefix. |
| Dashboard.PerfGameweekPiece | streamlit_app.py:136 | The last piece of a performance id split on `_gw_` is the gameweek's text. |
| Dashboard.DigitsOrZeroOfInt | streamlit_app.py:138 | The digits-or-zero parse of a formatted int gives the int, or 0 for a negative one. |
| Dashboard.PerfGameweekAsWrittenIsZero | streamlit_app.py:136-138 | The parse as written gives 0 for every performance id, whatever its gameweek. |
| Dashboard.PerfGameweekRoundTrip | streamlit_app.py:136-138 | The corrected parse reads back the gameweek of every performance id, and 0 for a negative one. |
| Dashboard.PerfRowGameweek | streamlit_app.py:136-138 | The row of a manager's performance node carries gameweek 0 under the parse as written, and the gameweek its id was built with under the corrected parse. |
| Dashboard.TransferGameweekRoundTrip | streamlit_app.py:237-242 | The transfer parse reads `gameweek_{n}` back as n, and a negative n as 0. |
| Dashboard.TransferGameweekZero | streamlit_app.py:237-242 | An empty id, or one whose last `_` piece is not all digits, gives 0. |
| Dashboard.FetchTransferData | streamlit_app.py:214-257 | One transfer row per node with properties, in order, with defaults for missing properties. |
| Dashboard.TransferRowsComplete | streamlit_app.py:225-239 | There are never more rows than nodes, and there are as many exactly when every node carries properties. |
| Dashboard.SelectedMembers | streamlit_app.py:473-480 | The selection keeps exactly the transfers whose manager maps to a selected name. |
| Dashboard.SuccessCount | streamlit_app.py:495 | Successes never exceed the number of transfers. |
| Dashboard.SuccessRateRange | streamlit_app.py:496 | With successes at most the total, the rate lies in [0, 100]. It is 100 exactly when all of at least one transfer succeed, and 0 exactly when none succeed or there are none. |
| Dashboard.SelectionRate | streamlit_app.py:487-496 | The headline success rate of the selection is a percentage, and 0 when nothing is selected. |
| Dashboard.ManagerCounts | streamlit_app.py:521-550 | A manager's unsuccessful count lies between 0 and their transfer count, and their rate is a percentage. |
| Dashboard.ManagerNetGain | streamlit_app.py:531-533 | A manager's net gain is the sum, over their transfers, of benefit minus cost. |
| Dashboard.RowsOfManagerMembers | streamlit_app.py:521 | A manager's group holds exactly the transfers whose id maps to that name. |

## Left out

- HTTP, JSON decoding and the sleeps' real time. `raise_for_status`, connection errors and malformed JSON are all one missing entry of the upstream. The client's trace records the sleeps, but the handlers' sleeps are not modelled.
- The Cognite SDK. Raw inserts and node applies are entries of the returned log, and the sink accepts every write. A write that raises, and thereby ends a run, is not modelled.
- Timestamps (`updated_at`, `timestamp`), the `_type` column of the bootstrap rows, view ids and spaces of nodes, and the report's `message` text.
- `round(x, 2)` on the weekly analytics, and their Python float width. The analytics are exact reals.
- The text-to-float conversion of `form`, `selected_by_percent` and `points_per_game`. These stay text, kept only when truthy. `str(picks)` is kept as an opaque text.
- A `KeyError` part-way through building a row, such as a history entry without `round`. Such a row is assumed well-formed: the ingestion skips the whole player, and the weekly update fails the run. Rows already collected for that player are not modelled.
- Weekly update: the `current` history being JSON `null` rather than missing. A missing `standings`/`results` is modelled as a failed run.
- The weekly update's unused `player_team_map`, and the transfer-success, benefit and team-betting metrics. The dashboard reads those metrics, but these files compute them nowhere. The manager node keeps the constants 0.0 and 0 for the two transfer fields.
- Dashboard: everything in Streamlit, Plotly and pandas styling, the listing limits (`limit=1000`/`2000`), caching, the other fetch functions, the mean net benefit, the `.round` of the group table and its sort by rate.
- Dashboard.FetchPerformanceData: the order of rows with equal gameweeks. pandas' default sort is not stable, so only sortedness and the multiset of rows are promised.
- Dashboard.TransferRow: net benefit, costs and prices are modelled as ints (points and tenths), not floats. The row keeps the gameweek's external id, and its gameweek number is the parse `Gameweek()` of that id.
- `str.isdigit` over non-ASCII digits. Only `0`–`9` count.
- WeeklyUpdate.LeagueId, Ingestion.LeagueIdOf: the payload's `league_id` is taken as text. A non-string JSON value is not modelled: a falsy number such as `0`, or `false`, would fall through to the environment value, while the model's text `"0"` is truthy.
- Dashboard.FetchPerformanceData: the method takes the gameweek parse as a parameter. `AsWritten` is the dashboard as written, whose rows all carry gameweek 0 over performance ids. `Corrected` is the intended reading that the finding below describes.

## Findings

| source | as written | input that shows it | evidently intended | confidence | as-written member | corrected member |
|---|---|---|---|---|---|---|
| streamlit_app.py:136-138 | The gameweek is `int(gw_num)` of the piece after the last `"_gw"` of the external id. | `perf_12_gw_3`: the piece after `_gw` is `_3`, which fails `isdigit`, so every performance row gets gameweek 0. | Split on `"_gw_"`, which reads back the `n` of `perf_{e}_gw_{n}`. | not executed | Dashboard.PerfGameweekAsWritten, Dashboard.PerfGameweekAsWrittenIsZero | Dashboard.PerfGameweek, Dashboard.PerfGameweekRoundTrip |
