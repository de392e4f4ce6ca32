/**
 * The payloads of the Fantasy Premier League API that the ingestion and update
 * functions read, and the upstream itself as a fetch oracle.
 *
 * A field read with `d[key]` is a plain field; a field read with `d.get(key)` is an
 * Option (None is the missing key). JSON decoding is not modelled: a payload is
 * already a value of these types.
 */
module FplApi {
  import opened Wrappers

  /** One element of bootstrap-static `teams`. */
  datatype Team = Team(id: int, name: string, shortName: string, strength: Option<int>)

  /** One element of bootstrap-static `elements`; `nowCost` is in tenths of a million. */
  datatype Player = Player(
    id: int, firstName: string, secondName: string, webName: string,
    elementType: int, team: int, nowCost: int, totalPoints: int,
    pointsPerGame: Option<string>, form: Option<string>, selectedByPercent: Option<string>)

  /** One element of bootstrap-static `events` (a gameweek). */
  datatype Event = Event(
    id: int, name: string, deadlineTime: string, finished: bool, isCurrent: bool,
    averageEntryScore: Option<int>, highestScore: Option<int>)

  /** `bootstrap-static/`; a missing list reads as empty (`.get(key, [])`). */
  datatype Bootstrap = Bootstrap(teams: seq<Team>, elements: seq<Player>, events: seq<Event>)

  /** One element of `element-summary/{id}/` `history`: one player's figures in one round. */
  datatype PlayerRound = PlayerRound(
    round: int, totalPoints: int, minutes: int, goalsScored: int, assists: int,
    cleanSheets: int, goalsConceded: int, ownGoals: int, penaltiesSaved: int,
    penaltiesMissed: int, yellowCards: int, redCards: int, saves: int, bonus: int,
    bps: int, influence: string, creativity: string, threat: string, ictIndex: string,
    value: int, transfersIn: int, transfersOut: int, selected: int)

  datatype PlayerSummary = PlayerSummary(history: seq<PlayerRound>)

  /** One element of `standings.results` of `leagues-classic/{id}/standings/`. */
  datatype Standing = Standing(entry: int, playerName: string, entryName: string, rank: int)

  /**
   * `leagues-classic/{id}/standings/`: the league's name (`league.name`, read with
   * `.get`) and `standings.results`, None when either key is missing.
   */
  datatype LeagueStandings = LeagueStandings(leagueName: Option<string>, results: Option<seq<Standing>>)

  /** `entry/{id}/`. */
  datatype Entry = Entry(
    playerFirstName: string, playerLastName: string, name: string,
    summaryOverallPoints: Option<int>, summaryOverallRank: Option<int>)

  /** One element of `entry/{id}/history/` `current`; `value` and `bank` are in tenths. */
  datatype EntryRound = EntryRound(
    event: int, points: int, totalPoints: int, rank: int, overallRank: Option<int>,
    eventTransfers: Option<int>, eventTransfersCost: Option<int>, value: int, bank: int)

  /** `entry/{id}/history/`; a missing `current` reads as empty. */
  datatype EntryHistory = EntryHistory(current: seq<EntryRound>)

  /** `entry_history` of a picks payload; every key is read with `.get` (missing object: all None). */
  datatype PicksRound = PicksRound(
    points: Option<int>, totalPoints: Option<int>, rank: Option<int>,
    eventTransfers: Option<int>, eventTransfersCost: Option<int>,
    bank: Option<int>, value: Option<int>)

  /** `entry/{id}/event/{gw}/picks/`; `picksText` is `str(picks)`, kept as opaque text. */
  datatype Picks = Picks(entryHistory: PicksRound, activeChip: Option<string>, picksText: string)

  /**
   * The upstream as the two functions see it in one run. Each map holds the payload of
   * every request that succeeds; a key that is absent is a request that raised (an HTTP
   * error status, a connection failure or a body that is not JSON).
   */
  datatype Upstream = Upstream(
    bootstrap: Option<Bootstrap>,
    summaries: map<int, PlayerSummary>,
    leagues: map<string, LeagueStandings>,
    entries: map<int, Entry>,
    histories: map<int, EntryHistory>,
    picks: map<(int, int), Picks>)

  /** The outcome of fetching key `k`. */
  function Fetch<K, V>(m: map<K, V>, k: K): (r: Option<V>)
    ensures r.Some? <==> k in m
    ensures r.Some? ==> r.value == m[k]
  {
    if k in m then Some(m[k]) else None
  }

  /** Index of the first event at or after `from` whose `is_current` is set. */
  function FirstCurrentFrom(events: seq<Event>, from: nat): (k: Option<nat>)
    requires from <= |events|
    ensures k.Some? ==> from <= k.value < |events| && events[k.value].isCurrent
    ensures k.Some? ==> forall j :: from <= j < k.value ==> !events[j].isCurrent
    ensures k.None? ==> forall j :: from <= j < |events| ==> !events[j].isCurrent
    decreases |events| - from
  {
    if from == |events| then None
    else if events[from].isCurrent then Some(from)
    else FirstCurrentFrom(events, from + 1)
  }

  /** `next((e for e in events if e.get("is_current")), None)`: the first event flagged current. */
  function CurrentEvent(events: seq<Event>): (r: Option<Event>)
    ensures r.Some? ==> exists k :: 0 <= k < |events| && events[k] == r.value
    ensures r.Some? ==> r.value.isCurrent
    ensures r.None? <==> forall j :: 0 <= j < |events| ==> !events[j].isCurrent
  {
    match FirstCurrentFrom(events, 0)
    case Some(k) => Some(events[k])
    case None => None
  }

  /** The first current event comes before every other current event. */
  lemma CurrentEventIsFirst(events: seq<Event>, j: nat)
    requires j < |events| && events[j].isCurrent
    ensures CurrentEvent(events).Some?
    ensures exists k :: 0 <= k <= j && events[k] == CurrentEvent(events).value
  {
    var k := FirstCurrentFrom(events, 0).value;
    assert k <= j;
  }
}
