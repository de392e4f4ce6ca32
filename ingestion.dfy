/**
 * The raw ingestion function
 * (modules/fantasy-football/functions/fpl_data_ingestion/handler.py): it copies the
 * bootstrap data, every player's per-round history, and optionally one league with its
 * managers and their picks, into raw tables of database `fantasy_football`.
 *
 * The upstream is an `Upstream` value. Every request is recorded as a `Get` of the
 * endpoint it targets (`RequestUrl` spells the URL the function builds for it), and
 * every insert into a raw table as an `Insert`, in the returned log.
 */
module Ingestion {
  import opened Wrappers
  import opened Strings
  import opened FplApi
  import opened Keys
  import opened Endpoints

  /** The database every insert of the function targets. */
  const Database: string := "fantasy_football"
  /** The four raw tables of the database. */
  datatype Table = BootstrapTable | PlayerRoundTable | LeagueTable | PicksTable {
    /** The table's name in the database. */
    function Name(): string {
      match this
      case BootstrapTable => "fpl_bootstrap_static"
      case PlayerRoundTable => "fpl_player_gameweek"
      case LeagueTable => "fpl_leagues"
      case PicksTable => "fpl_manager_picks"
    }
  }

  /** Players and player rounds are inserted this many rows at a time. */
  const BatchSize: nat := 1000

  /** The columns of a raw row, one constructor per kind of row. */
  datatype Columns =
    | TeamColumns(team: Team)
    | PlayerColumns(player: Player)
    | EventColumns(event: Event)
    | PlayerRoundColumns(playerId: int, round: PlayerRound)
    | LeagueColumns(leagueId: string, name: Option<string>, leagueType: string)
    | ManagerColumns(
        entryId: int, managerName: string, teamName: string, leagueId: string,
        overallPoints: Option<int>, overallRank: Option<int>)
    | PicksColumns(
        entryId: int, gameweek: int, entryHistory: PicksRound, activeChip: Option<string>,
        picksText: string)

  /**
   * A raw row: the record it stands for and its columns. The `key` column is the
   * record's key text, `KeyOf(record)`.
   */
  datatype Row = Row(record: Record, columns: Columns) {
    function Key(): string {
      KeyOf(record)
    }
  }

  /** The requests the function makes, one constructor per endpoint. */
  datatype Request =
    | FetchBootstrap
    | FetchSummary(playerId: int)
    | FetchLeague(leagueId: string)
    | FetchEntry(entryId: int)
    | FetchPicks(entryId: int, gameweek: int)

  /** The endpoint of a request. */
  function RequestPath(r: Request): string {
    match r
    case FetchBootstrap => BootstrapStaticPath
    case FetchSummary(p) => ElementSummaryPath(p)
    case FetchLeague(l) => LeaguePath(l)
    case FetchEntry(e) => EntryPath(e)
    case FetchPicks(e, g) => EntryPicksPath(e, g)
  }

  /** The URL the function builds for a request, under the API's base URL. */
  function RequestUrl(r: Request): string {
    Url(RequestPath(r))
  }

  /** The client's resource with the same endpoint, for the requests keyed by an int. */
  function AsResource(r: Request): Resource
    requires !r.FetchLeague?
  {
    match r
    case FetchBootstrap => BootstrapStatic
    case FetchSummary(p) => Resource.PlayerSummary(p)
    case FetchEntry(e) => EntryDetails(e)
    case FetchPicks(e, g) => EntryPicks(e, g)
  }

  /** Two requests go to the same URL exactly when they are the same request. */
  lemma RequestUrlInjective(a: Request, b: Request)
    ensures RequestUrl(a) == RequestUrl(b) <==> a == b
  {
    if RequestUrl(a) == RequestUrl(b) {
      UrlInjective(RequestPath(a), RequestPath(b));
      if a.FetchLeague? && b.FetchLeague? {
        LeaguePathInjective(a.leagueId, b.leagueId);
      } else if a.FetchLeague? {
        LeagueHead(a.leagueId);
        PathHead(AsResource(b));
      } else if b.FetchLeague? {
        LeagueHead(b.leagueId);
        PathHead(AsResource(a));
      } else {
        assert Path(AsResource(a)) == RequestPath(a) && Path(AsResource(b)) == RequestPath(b);
        PathInjective(AsResource(a), AsResource(b));
      }
    }
  }

  lemma LeagueHead(leagueId: string)
    ensures |LeaguePath(leagueId)| >= 2 && LeaguePath(leagueId)[..2] == "le"
  {
  }

  lemma LeaguePathInjective(x: string, y: string)
    requires LeaguePath(x) == LeaguePath(y)
    ensures x == y
  {
    var p := "leagues-classic/";
    assert |x| == |y|;
    assert x == LeaguePath(x)[|p|..|p| + |x|];
    assert y == LeaguePath(y)[|p|..|p| + |y|];
  }

  /** What the function does to the outside world, in order. */
  datatype Effect = Get(request: Request) | Insert(table: Table, rows: seq<Row>)

  datatype Status = Succeeded | Failed

  datatype Stats = Stats(
    teams: nat, players: nat, gameweeks: nat, playerStats: nat, leagues: nat, managers: nat, picks: nat)

  const NoStats: Stats := Stats(0, 0, 0, 0, 0, 0, 0)

  datatype Report = Report(status: Status, stats: Stats)

  // ---------------------------------------------------------------------------
  // Rows

  function TeamRow(t: Team): Row {
    Row(TeamRecord(t.id), TeamColumns(t))
  }

  function PlayerRow(p: Player): Row {
    Row(PlayerRecord(p.id), PlayerColumns(p))
  }

  function EventRow(e: Event): Row {
    Row(GameweekRecord(e.id), EventColumns(e))
  }

  function PlayerRoundRow(playerId: int, r: PlayerRound): Row {
    Row(PlayerRoundRecord(playerId, r.round), PlayerRoundColumns(playerId, r))
  }

  function LeagueRow(leagueId: string, name: Option<string>): Row {
    Row(LeagueRecord(leagueId), LeagueColumns(leagueId, name, "classic"))
  }

  /** The manager's name is first and last name joined by one space. */
  function ManagerRow(entryId: int, e: Entry, leagueId: string): Row {
    Row(ManagerRecord(entryId), ManagerColumns(
      entryId, e.playerFirstName + " " + e.playerLastName, e.name, leagueId,
      e.summaryOverallPoints, e.summaryOverallRank))
  }

  function PicksRow(entryId: int, gameweek: int, p: Picks): Row {
    Row(ManagerRoundRecord(entryId, gameweek),
      PicksColumns(entryId, gameweek, p.entryHistory, p.activeChip, p.picksText))
  }

  function TeamRows(teams: seq<Team>): seq<Row> {
    seq(|teams|, k requires 0 <= k < |teams| => TeamRow(teams[k]))
  }

  function PlayerRows(players: seq<Player>): seq<Row> {
    seq(|players|, k requires 0 <= k < |players| => PlayerRow(players[k]))
  }

  function EventRows(events: seq<Event>): seq<Row> {
    seq(|events|, k requires 0 <= k < |events| => EventRow(events[k]))
  }

  function PlayerRoundRows(playerId: int, history: seq<PlayerRound>): seq<Row> {
    seq(|history|, k requires 0 <= k < |history| => PlayerRoundRow(playerId, history[k]))
  }

  /** The per-round rows of all players whose summary could be fetched, player by player. */
  function StatRows(players: seq<Player>, summaries: map<int, PlayerSummary>): seq<Row> {
    if |players| == 0 then []
    else
      var p := players[|players| - 1];
      StatRows(players[..|players| - 1], summaries)
        + (if p.id in summaries then PlayerRoundRows(p.id, summaries[p.id].history) else [])
  }

  /** The summary requests, one per player, in order. */
  function SummaryGets(players: seq<Player>): seq<Effect> {
    seq(|players|, k requires 0 <= k < |players| => Get(FetchSummary(players[k].id)))
  }

  // ---------------------------------------------------------------------------
  // Batches

  /** `[rows[i:i + size] for i in range(0, len(rows), size)]`. */
  function Batches<T>(rows: seq<T>, size: nat): seq<seq<T>>
    requires size > 0
    decreases |rows|
  {
    if |rows| == 0 then []
    else if |rows| <= size then [rows]
    else [rows[..size]] + Batches(rows[size..], size)
  }

  function Flatten<T>(batches: seq<seq<T>>): seq<T> {
    if |batches| == 0 then [] else batches[0] + Flatten(batches[1..])
  }

  /** One insert per batch, in order. */
  function BatchInserts(table: Table, batches: seq<seq<Row>>): seq<Effect> {
    if |batches| == 0 then [] else [Insert(table, batches[0])] + BatchInserts(table, batches[1..])
  }


  /** `if rows: insert(rows)`. */
  function InsertIfAny(table: Table, rows: seq<Row>): seq<Effect> {
    if |rows| > 0 then [Insert(table, rows)] else []
  }

  // ---------------------------------------------------------------------------
  // League id, picks and standings

  /** `data.get("league_id") or os.getenv("FPL_LEAGUE_ID")`, kept only when truthy. */
  function LeagueIdOf(payload: Option<string>, env: Option<string>): (id: Option<string>)
    ensures id.Some? ==> id.value != ""
    ensures payload.Some? && payload.value != "" ==> id == payload
    ensures (payload.None? || payload.value == "") ==> id == (if env.Some? && env.value != "" then env else None)
  {
    if payload.Some? && payload.value != "" then payload
    else if env.Some? && env.value != "" then env
    else None
  }

  /** `league_data.get("standings", {}).get("results", [])`. */
  function ResultsOf(league: LeagueStandings): seq<Standing> {
    league.results.GetOr([])
  }

  /** The steps for one gameweek's picks: the request, then the row if it succeeded. */
  function PicksStep(entryId: int, gameweek: int, picks: map<(int, int), Picks>): seq<Effect> {
    [Get(FetchPicks(entryId, gameweek))]
      + if (entryId, gameweek) in picks
        then [Insert(PicksTable, [PicksRow(entryId, gameweek, picks[(entryId, gameweek)])])]
        else []
  }

  /** The steps for gameweeks 1 to `last`, in ascending order. */
  function PicksEffects(entryId: int, last: int, picks: map<(int, int), Picks>): seq<Effect>
    decreases last
  {
    if last <= 0 then [] else PicksEffects(entryId, last - 1, picks) + PicksStep(entryId, last, picks)
  }

  /** The number of gameweeks 1 to `last` whose picks could be fetched. */
  function PicksCount(entryId: int, last: int, picks: map<(int, int), Picks>): nat
    decreases last
  {
    if last <= 0 then 0
    else PicksCount(entryId, last - 1, picks) + (if (entryId, last) in picks then 1 else 0)
  }

  /** The index of the first standing whose entry cannot be fetched, or the count of standings. */
  function FirstMissing(results: seq<Standing>, entries: map<int, Entry>): (k: nat)
    ensures k <= |results|
    ensures forall i :: 0 <= i < k ==> results[i].entry in entries
    ensures k < |results| ==> results[k].entry !in entries
  {
    if |results| == 0 then 0
    else if results[0].entry !in entries then 0
    else 1 + FirstMissing(results[1..], entries)
  }

  /** Every standing's entry was fetched. */
  predicate AllEntries(results: seq<Standing>, entries: map<int, Entry>) {
    forall i :: 0 <= i < |results| ==> results[i].entry in entries
  }

  /** The steps for one standing whose entry was fetched. */
  function StandingEffects(s: Standing, up: Upstream, leagueId: string, currentGw: Option<int>): seq<Effect>
    requires s.entry in up.entries
  {
    [Get(FetchEntry(s.entry)), Insert(PicksTable, [ManagerRow(s.entry, up.entries[s.entry], leagueId)])]
      + if currentGw.Some? then PicksEffects(s.entry, currentGw.value, up.picks) else []
  }

  function StandingsEffects(results: seq<Standing>, up: Upstream, leagueId: string, currentGw: Option<int>): seq<Effect>
    requires AllEntries(results, up.entries)
  {
    if |results| == 0 then []
    else
      StandingsEffects(results[..|results| - 1], up, leagueId, currentGw)
        + StandingEffects(results[|results| - 1], up, leagueId, currentGw)
  }

  function StandingsPicks(results: seq<Standing>, picks: map<(int, int), Picks>, currentGw: Option<int>): nat {
    if |results| == 0 || currentGw.None? then 0
    else
      StandingsPicks(results[..|results| - 1], picks, currentGw)
        + PicksCount(results[|results| - 1].entry, currentGw.value, picks)
  }

  // ---------------------------------------------------------------------------
  // The whole run, as a function of the upstream

  /** The current gameweek number, when an event is flagged current. */
  function CurrentGameweek(b: Bootstrap): Option<int> {
    match CurrentEvent(b.events)
    case None => None
    case Some(e) => Some(e.id)
  }

  /** Step 1: the bootstrap request and the three bootstrap inserts (players in batches). */
  function BootstrapLog(b: Bootstrap): seq<Effect> {
    [Get(FetchBootstrap)]
      + InsertIfAny(BootstrapTable, TeamRows(b.teams))
      + BatchInserts(BootstrapTable, Batches(PlayerRows(b.elements), BatchSize))
      + InsertIfAny(BootstrapTable, EventRows(b.events))
  }

  /** Step 2: the summary requests and the per-round inserts, only with a current gameweek. */
  function StatsLog(b: Bootstrap, summaries: map<int, PlayerSummary>): seq<Effect> {
    if CurrentGameweek(b).None? then []
    else
      SummaryGets(b.elements)
        + BatchInserts(PlayerRoundTable, Batches(StatRows(b.elements, summaries), BatchSize))
  }

  /**
   * The standings part of step 3: each standing until the first entry that cannot be
   * fetched, whose request ends the run.
   */
  function StandingsLog(results: seq<Standing>, up: Upstream, leagueId: string, currentGw: Option<int>): seq<Effect> {
    var k := FirstMissing(results, up.entries);
    StandingsEffects(results[..k], up, leagueId, currentGw)
      + if k < |results| then [Get(FetchEntry(results[k].entry))] else []
  }

  /** Step 3 for a league id: the league request, then the league row and the standings. */
  function LeagueLog(up: Upstream, leagueId: string, currentGw: Option<int>): seq<Effect> {
    if leagueId !in up.leagues then [Get(FetchLeague(leagueId))]
    else
      [Get(FetchLeague(leagueId)), Insert(LeagueTable, [LeagueRow(leagueId, up.leagues[leagueId].leagueName)])]
        + StandingsLog(ResultsOf(up.leagues[leagueId]), up, leagueId, currentGw)
  }

  /** The full log of a run once the bootstrap data was fetched. */
  function RunLog(up: Upstream, b: Bootstrap, leagueId: Option<string>): seq<Effect> {
    BootstrapLog(b) + StatsLog(b, up.summaries)
      + if leagueId.Some? then LeagueLog(up, leagueId.value, CurrentGameweek(b)) else []
  }

  /** The run completes: the bootstrap data, the league and every entry could be fetched. */
  predicate Completes(up: Upstream, leagueId: Option<string>) {
    && up.bootstrap.Some?
    && (leagueId.Some? ==>
         && leagueId.value in up.leagues
         && AllEntries(ResultsOf(up.leagues[leagueId.value]), up.entries))
  }

  /** The report of a run once the bootstrap data was fetched. */
  function RunReport(up: Upstream, b: Bootstrap, leagueId: Option<string>): Report {
    var current := CurrentGameweek(b);
    var base := Stats(
      |b.teams|, |b.elements|, |b.events|,
      if current.Some? then |StatRows(b.elements, up.summaries)| else 0, 0, 0, 0);
    if leagueId.None? then Report(Succeeded, base)
    else if leagueId.value !in up.leagues then Report(Failed, base)
    else
      var results := ResultsOf(up.leagues[leagueId.value]);
      var k := FirstMissing(results, up.entries);
      var stats := base.(leagues := 1, managers := k, picks := StandingsPicks(results[..k], up.picks, current));
      Report(if k == |results| then Succeeded else Failed, stats)
  }

  // ---------------------------------------------------------------------------
  // The loops of `handle`

  method CollectTeamRows(teams: seq<Team>) returns (rows: seq<Row>)
    ensures rows == TeamRows(teams)
  {
    rows := [];
    var i := 0;
    while i < |teams|
      invariant 0 <= i <= |teams|
      invariant |rows| == i
      invariant forall k :: 0 <= k < i ==> rows[k] == TeamRow(teams[k])
    {
      rows := rows + [TeamRow(teams[i])];
      i := i + 1;
    }
  }

  method CollectPlayerRows(players: seq<Player>) returns (rows: seq<Row>)
    ensures rows == PlayerRows(players)
  {
    rows := [];
    var i := 0;
    while i < |players|
      invariant 0 <= i <= |players|
      invariant |rows| == i
      invariant forall k :: 0 <= k < i ==> rows[k] == PlayerRow(players[k])
    {
      rows := rows + [PlayerRow(players[i])];
      i := i + 1;
    }
  }

  method CollectEventRows(events: seq<Event>) returns (rows: seq<Row>)
    ensures rows == EventRows(events)
  {
    rows := [];
    var i := 0;
    while i < |events|
      invariant 0 <= i <= |events|
      invariant |rows| == i
      invariant forall k :: 0 <= k < i ==> rows[k] == EventRow(events[k])
    {
      rows := rows + [EventRow(events[i])];
      i := i + 1;
    }
  }

  /** `for i in range(0, len(rows), 1000): insert(rows[i:i + 1000])`. */
  method InsertBatches(table: Table, rows: seq<Row>) returns (inserts: seq<Effect>)
    ensures inserts == BatchInserts(table, Batches(rows, BatchSize))
  {
    inserts := [];
    var i := 0;
    while i < |rows|
      invariant 0 <= i <= |rows|
      invariant inserts + BatchInserts(table, Batches(rows[i..], BatchSize))
        == BatchInserts(table, Batches(rows, BatchSize))
      decreases |rows| - i
    {
      var end := if i + BatchSize <= |rows| then i + BatchSize else |rows|;
      var rest, batch := rows[i..], rows[i..end];
      BatchInsertsStep(table, rest, end - i);
      assert rest[..end - i] == batch;
      assert rest[end - i..] == rows[end..];
      var later := BatchInserts(table, Batches(rows[end..], BatchSize));
      ghost var before := inserts;
      inserts := inserts + [Insert(table, batch)];
      assert inserts + later == before + ([Insert(table, batch)] + later);
      i := end;
    }
    assert rows[i..] == [];
  }

  /** Peeling the first batch off. */
  lemma BatchInsertsStep(table: Table, rows: seq<Row>, first: nat)
    requires 0 < |rows|
    requires first == if BatchSize <= |rows| then BatchSize else |rows|
    ensures BatchInserts(table, Batches(rows, BatchSize))
      == [Insert(table, rows[..first])] + BatchInserts(table, Batches(rows[first..], BatchSize))
  {
    BatchesStep(rows, BatchSize, first);
    var rest := Batches(rows[first..], BatchSize);
    assert ([rows[..first]] + rest)[0] == rows[..first];
    assert ([rows[..first]] + rest)[1..] == rest;
  }

  lemma BatchesStep<T>(rows: seq<T>, size: nat, first: nat)
    requires 0 < |rows| && size > 0
    requires first == if size <= |rows| then size else |rows|
    ensures Batches(rows, size) == [rows[..first]] + Batches(rows[first..], size)
  {
    if |rows| <= size {
      assert rows[..first] == rows;
      assert rows[first..] == [];
    }
  }

  /** The inner loop: one row per round of one player's history, appended in order. */
  method AppendPlayerRounds(rows: seq<Row>, playerId: int, history: seq<PlayerRound>) returns (out: seq<Row>)
    ensures out == rows + PlayerRoundRows(playerId, history)
  {
    out := rows;
    var j := 0;
    while j < |history|
      invariant 0 <= j <= |history|
      invariant |out| == |rows| + j
      invariant out[..|rows|] == rows
      invariant forall k :: 0 <= k < j ==> out[|rows| + k] == PlayerRoundRow(playerId, history[k])
    {
      out := out + [PlayerRoundRow(playerId, history[j])];
      j := j + 1;
    }
  }

  /** The per-player loop: a player whose summary cannot be fetched is skipped. */
  method CollectStatRows(players: seq<Player>, summaries: map<int, PlayerSummary>)
    returns (rows: seq<Row>, gets: seq<Effect>)
    ensures rows == StatRows(players, summaries)
    ensures gets == SummaryGets(players)
  {
    rows, gets := [], [];
    var i := 0;
    while i < |players|
      invariant 0 <= i <= |players|
      invariant rows == StatRows(players[..i], summaries)
      invariant |gets| == i
      invariant forall k :: 0 <= k < i ==> gets[k] == Get(FetchSummary(players[k].id))
    {
      var p := players[i];
      StatRowsSnoc(players, i, summaries);
      gets := gets + [Get(FetchSummary(p.id))];
      var fetched := Fetch(summaries, p.id);
      if fetched.Some? {
        rows := AppendPlayerRounds(rows, p.id, fetched.value.history);
      }
      i := i + 1;
    }
    assert players[..i] == players;
  }

  /** One more player extends the rows by that player's rounds, if it was fetched. */
  lemma StatRowsSnoc(players: seq<Player>, i: nat, summaries: map<int, PlayerSummary>)
    requires i < |players|
    ensures StatRows(players[..i + 1], summaries)
      == StatRows(players[..i], summaries)
        + (if players[i].id in summaries then PlayerRoundRows(players[i].id, summaries[players[i].id].history) else [])
  {
    assert players[..i + 1][..i] == players[..i];
  }

  /** The per-gameweek loop of one manager: a gameweek whose picks cannot be fetched is skipped. */
  method CollectPicks(entryId: int, currentGw: int, picks: map<(int, int), Picks>)
    returns (effects: seq<Effect>, count: nat)
    ensures effects == PicksEffects(entryId, currentGw, picks)
    ensures count == PicksCount(entryId, currentGw, picks)
  {
    effects, count := [], 0;
    var gw := 1;
    while gw <= currentGw
      invariant 1 <= gw <= if currentGw >= 1 then currentGw + 1 else 1
      invariant effects == PicksEffects(entryId, gw - 1, picks)
      invariant count == PicksCount(entryId, gw - 1, picks)
    {
      var step := [Get(FetchPicks(entryId, gw))];
      var fetched := Fetch(picks, (entryId, gw));
      if fetched.Some? {
        step := step + [Insert(PicksTable, [PicksRow(entryId, gw, fetched.value)])];
        count := count + 1;
      }
      assert step == PicksStep(entryId, gw, picks);
      effects := effects + step;
      gw := gw + 1;
    }
  }

  /** One standing after its entry was fetched: the manager row, then the picks. */
  method ProcessEntry(s: Standing, entry: Entry, up: Upstream, leagueId: string, currentGw: Option<int>)
    returns (effects: seq<Effect>, count: nat)
    requires s.entry in up.entries && entry == up.entries[s.entry]
    ensures [Get(FetchEntry(s.entry))] + effects == StandingEffects(s, up, leagueId, currentGw)
    ensures count == if currentGw.Some? then PicksCount(s.entry, currentGw.value, up.picks) else 0
  {
    effects := [Insert(PicksTable, [ManagerRow(s.entry, entry, leagueId)])];
    count := 0;
    if currentGw.Some? {
      var pickEffects;
      pickEffects, count := CollectPicks(s.entry, currentGw.value, up.picks);
      effects := effects + pickEffects;
    }
  }

  /**
   * The standings loop: fetch each entry, insert its manager row and, with a current
   * gameweek, its picks. The first entry that cannot be fetched ends the run.
   */
  method ProcessStandings(results: seq<Standing>, up: Upstream, leagueId: string, currentGw: Option<int>)
    returns (managers: nat, picks: nat, effects: seq<Effect>)
    ensures managers == FirstMissing(results, up.entries)
    ensures picks == StandingsPicks(results[..managers], up.picks, currentGw)
    ensures effects == StandingsLog(results, up, leagueId, currentGw)
  {
    managers, picks, effects := 0, 0, [];
    ghost var k := FirstMissing(results, up.entries);
    while managers < |results|
      invariant managers <= k
      invariant AllEntries(results[..managers], up.entries)
      invariant picks == StandingsPicks(results[..managers], up.picks, currentGw)
      invariant effects == StandingsEffects(results[..managers], up, leagueId, currentGw)
    {
      var s := results[managers];
      var entry := Fetch(up.entries, s.entry);
      if entry.None? {
        assert managers == k;
        effects := effects + [Get(FetchEntry(s.entry))];
        return;
      }
      StandingsSnoc(results, managers, up, leagueId, currentGw);
      var entryEffects, count := ProcessEntry(s, entry.value, up, leagueId, currentGw);
      effects := effects + ([Get(FetchEntry(s.entry))] + entryEffects);
      picks := picks + count;
      managers := managers + 1;
    }
  }

  /** Processing one more standing extends the effects and the picks count by its part. */
  lemma StandingsSnoc(results: seq<Standing>, i: nat, up: Upstream, leagueId: string, currentGw: Option<int>)
    requires i < |results|
    requires AllEntries(results[..i], up.entries) && results[i].entry in up.entries
    ensures AllEntries(results[..i + 1], up.entries)
    ensures StandingsEffects(results[..i + 1], up, leagueId, currentGw)
      == StandingsEffects(results[..i], up, leagueId, currentGw) + StandingEffects(results[i], up, leagueId, currentGw)
    ensures StandingsPicks(results[..i + 1], up.picks, currentGw)
      == StandingsPicks(results[..i], up.picks, currentGw)
        + (if currentGw.Some? then PicksCount(results[i].entry, currentGw.value, up.picks) else 0)
  {
    var prefix := results[..i + 1];
    assert prefix[..i] == results[..i];
    assert prefix[i] == results[i];
    assert AllEntries(prefix, up.entries) by {
      forall k | 0 <= k < |prefix| ensures prefix[k].entry in up.entries {
        if k < i {
          assert prefix[k] == results[..i][k];
        }
      }
    }
  }

  /** Step 2: per-round stats, only when a gameweek is current. */
  method LoadStats(b: Bootstrap, summaries: map<int, PlayerSummary>) returns (count: nat, effects: seq<Effect>)
    ensures effects == StatsLog(b, summaries)
    ensures count == if CurrentGameweek(b).Some? then |StatRows(b.elements, summaries)| else 0
  {
    count, effects := 0, [];
    var current := CurrentEvent(b.events);
    if current.Some? {
      var rows, gets := CollectStatRows(b.elements, summaries);
      effects := gets;
      if |rows| > 0 {
        var inserts := InsertBatches(PlayerRoundTable, rows);
        effects := effects + inserts;
        count := |rows|;
      } else {
        assert effects == effects + BatchInserts(PlayerRoundTable, Batches(rows, BatchSize));
      }
    }
  }

  /** Step 1 after the bootstrap request: the three bootstrap inserts. */
  method LoadBootstrap(b: Bootstrap) returns (stats: Stats, effects: seq<Effect>)
    ensures [Get(FetchBootstrap)] + effects == BootstrapLog(b)
    ensures stats == NoStats.(teams := |b.teams|, players := |b.elements|, gameweeks := |b.events|)
  {
    stats, effects := NoStats, [];
    var teamRows := CollectTeamRows(b.teams);
    if |teamRows| > 0 {
      effects := effects + [Insert(BootstrapTable, teamRows)];
      stats := stats.(teams := |teamRows|);
    }
    var playerRows := CollectPlayerRows(b.elements);
    if |playerRows| > 0 {
      var inserts := InsertBatches(BootstrapTable, playerRows);
      effects := effects + inserts;
      stats := stats.(players := |playerRows|);
    } else {
      assert BatchInserts(BootstrapTable, Batches(playerRows, BatchSize)) == [];
    }
    var eventRows := CollectEventRows(b.events);
    if |eventRows| > 0 {
      effects := effects + [Insert(BootstrapTable, eventRows)];
      stats := stats.(gameweeks := |eventRows|);
    }
    assert [Get(FetchBootstrap)] + effects == BootstrapLog(b);
  }

  /** Step 3: the league row, then the standings. */
  method LoadLeague(up: Upstream, leagueId: string, currentGw: Option<int>, base: Stats)
    returns (report: Report, effects: seq<Effect>)
    ensures effects == LeagueLog(up, leagueId, currentGw)
    ensures leagueId !in up.leagues ==> report == Report(Failed, base)
    ensures leagueId in up.leagues ==>
      var results := ResultsOf(up.leagues[leagueId]);
      var k := FirstMissing(results, up.entries);
      report == Report(if k == |results| then Succeeded else Failed,
        base.(leagues := 1, managers := k, picks := base.picks + StandingsPicks(results[..k], up.picks, currentGw)))
  {
    effects := [Get(FetchLeague(leagueId))];
    var league := Fetch(up.leagues, leagueId);
    if league.None? {
      return Report(Failed, base), effects;
    }
    effects := effects + [Insert(LeagueTable, [LeagueRow(leagueId, league.value.leagueName)])];
    var stats := base.(leagues := 1);
    var results := ResultsOf(league.value);
    var managers, picks, standingEffects := ProcessStandings(results, up, leagueId, currentGw);
    effects := effects + standingEffects;
    stats := stats.(managers := managers, picks := stats.picks + picks);
    report := Report(if managers == |results| then Succeeded else Failed, stats);
  }

  /**
   * `handle`: a failed bootstrap, league or entry request ends the run with status
   * error and the stats gathered so far; a failed player summary or picks request only
   * skips that item.
   */
  method Handle(payloadLeagueId: Option<string>, envLeagueId: Option<string>, up: Upstream)
    returns (report: Report, log: seq<Effect>)
    ensures |log| > 0 && log[0] == Get(FetchBootstrap)
    ensures up.bootstrap.None? ==> report == Report(Failed, NoStats) && log == [Get(FetchBootstrap)]
    ensures up.bootstrap.Some? ==>
      && log == RunLog(up, up.bootstrap.value, LeagueIdOf(payloadLeagueId, envLeagueId))
      && report == RunReport(up, up.bootstrap.value, LeagueIdOf(payloadLeagueId, envLeagueId))
  {
    log := [Get(FetchBootstrap)];
    if up.bootstrap.None? {
      return Report(Failed, NoStats), log;
    }
    var b := up.bootstrap.value;
    var stats, bootstrapEffects := LoadBootstrap(b);
    log := log + bootstrapEffects;
    var count, statsEffects := LoadStats(b, up.summaries);
    log := log + statsEffects;
    stats := stats.(playerStats := count);

    var leagueId := LeagueIdOf(payloadLeagueId, envLeagueId);
    if leagueId.None? {
      return Report(Succeeded, stats), log;
    }
    var leagueEffects;
    report, leagueEffects := LoadLeague(up, leagueId.value, CurrentGameweek(b), stats);
    log := log + leagueEffects;
  }

  // ---------------------------------------------------------------------------
  // Properties

  /** The rows a log inserts into one table, in order. */
  function RowsInto(table: Table, log: seq<Effect>): seq<Row> {
    if |log| == 0 then [] else RowsOf(table, log[0]) + RowsInto(table, log[1..])
  }

  /** The rows one effect inserts into one table. */
  function RowsOf(table: Table, e: Effect): seq<Row> {
    if e.Insert? && e.table == table then e.rows else []
  }

  /** The requests a log makes, in order. */
  function Requests(log: seq<Effect>): seq<Request> {
    if |log| == 0 then [] else (if log[0].Get? then [log[0].request] else []) + Requests(log[1..])
  }

  lemma {:induction false} RowsIntoAppend(table: Table, a: seq<Effect>, b: seq<Effect>)
    ensures RowsInto(table, a + b) == RowsInto(table, a) + RowsInto(table, b)
    decreases |a|
  {
    if |a| == 0 {
      assert a + b == b;
    } else {
      assert (a + b)[0] == a[0];
      assert (a + b)[1..] == a[1..] + b;
      RowsIntoAppend(table, a[1..], b);
      assert RowsInto(table, a + b) == RowsOf(table, a[0]) + (RowsInto(table, a[1..]) + RowsInto(table, b));
    }
  }

  lemma {:induction false} RequestsAppend(a: seq<Effect>, b: seq<Effect>)
    ensures Requests(a + b) == Requests(a) + Requests(b)
    decreases |a|
  {
    if |a| == 0 {
      assert a + b == b;
    } else {
      assert (a + b)[0] == a[0];
      assert (a + b)[1..] == a[1..] + b;
      RequestsAppend(a[1..], b);
    }
  }

  /** Batching loses, repeats and reorders no row. */
  lemma {:induction false} BatchesFlatten<T>(rows: seq<T>, size: nat)
    requires size > 0
    ensures Flatten(Batches(rows, size)) == rows
    decreases |rows|
  {
    if 0 < |rows| <= size {
      assert Flatten(Batches(rows, size)) == rows + Flatten([]);
    } else if |rows| > size {
      var bs := Batches(rows, size);
      BatchesFlatten(rows[size..], size);
      assert bs[1..] == Batches(rows[size..], size);
      assert rows[..size] + rows[size..] == rows;
    }
  }

  /** Every batch is non-empty and at most `size` long, and all but the last are exactly `size` long. */
  lemma {:induction false} BatchesSizes<T>(rows: seq<T>, size: nat)
    requires size > 0
    ensures forall i :: 0 <= i < |Batches(rows, size)| ==> 0 < |Batches(rows, size)[i]| <= size
    ensures forall i :: 0 <= i < |Batches(rows, size)| - 1 ==> |Batches(rows, size)[i]| == size
    decreases |rows|
  {
    if |rows| > size {
      var bs := Batches(rows, size);
      var rest := Batches(rows[size..], size);
      BatchesSizes(rows[size..], size);
      forall i | 0 < i < |bs| ensures bs[i] == rest[i - 1] {
      }
    }
  }

  /** There are `ceil(n / size)` batches: the smallest count whose capacity holds every row. */
  lemma {:induction false} BatchesCount<T>(rows: seq<T>, size: nat)
    requires size > 0
    ensures |Batches(rows, size)| == 0 <==> |rows| == 0
    ensures |rows| <= size * |Batches(rows, size)|
    ensures |rows| > 0 ==> size * (|Batches(rows, size)| - 1) < |rows|
    decreases |rows|
  {
    if |rows| > size {
      var m := |Batches(rows[size..], size)|;
      BatchesCount(rows[size..], size);
      assert size * (m + 1) == size * m + size;
      assert size * (m + 1 - 1) == size * m;
    }
  }

  /** 2500 rows go in three inserts of 1000, 1000 and 500 rows. */
  lemma BatchesOf2500<T>(rows: seq<T>)
    requires |rows| == 2500
    ensures |Batches(rows, BatchSize)| == 3
    ensures |Batches(rows, BatchSize)[0]| == 1000 && |Batches(rows, BatchSize)[1]| == 1000
    ensures |Batches(rows, BatchSize)[2]| == 500
  {
    var r1 := rows[1000..];
    var r2 := r1[1000..];
    assert Batches(r2, BatchSize) == [r2];
    assert Batches(r1, BatchSize) == [r1[..1000]] + [r2];
    assert Batches(rows, BatchSize) == [rows[..1000]] + ([r1[..1000]] + [r2]);
  }

  /** The batch inserts put exactly the batched rows into their table, and nothing elsewhere. */
  lemma {:induction false} BatchInsertsRows(table: Table, other: Table, batches: seq<seq<Row>>)
    requires other != table
    ensures RowsInto(table, BatchInserts(table, batches)) == Flatten(batches)
    ensures RowsInto(other, BatchInserts(table, batches)) == []
    ensures Requests(BatchInserts(table, batches)) == []
    decreases |batches|
  {
    if |batches| > 0 {
      var first := [Insert(table, batches[0])];
      assert BatchInserts(table, batches) == first + BatchInserts(table, batches[1..]);
      RowsIntoAppend(table, first, BatchInserts(table, batches[1..]));
      RowsIntoAppend(other, first, BatchInserts(table, batches[1..]));
      RequestsAppend(first, BatchInserts(table, batches[1..]));
      RowsIntoInsert(table, table, batches[0]);
      RowsIntoInsert(other, table, batches[0]);
      RequestsInsert(table, batches[0]);
      BatchInsertsRows(table, other, batches[1..]);
    }
  }

  /** The rows of one table that a single insert (or nothing) contributes. */
  lemma InsertIfAnyRows(table: Table, other: Table, rows: seq<Row>)
    requires other != table
    ensures RowsInto(table, InsertIfAny(table, rows)) == rows
    ensures RowsInto(other, InsertIfAny(table, rows)) == []
    ensures Requests(InsertIfAny(table, rows)) == []
  {
    if |rows| > 0 {
      assert InsertIfAny(table, rows)[1..] == [];
    }
  }

  /** The picks steps of one manager request gameweeks 1 to `last`, in ascending order. */
  lemma {:induction false} PicksRequests(entryId: int, last: nat, picks: map<(int, int), Picks>)
    ensures |Requests(PicksEffects(entryId, last, picks))| == last
    ensures forall k :: 0 <= k < last ==> Requests(PicksEffects(entryId, last, picks))[k] == FetchPicks(entryId, k + 1)
  {
    if last > 0 {
      var before := Requests(PicksEffects(entryId, last - 1, picks));
      PicksRequests(entryId, last - 1, picks);
      RequestsAppend(PicksEffects(entryId, last - 1, picks), PicksStep(entryId, last, picks));
      PicksStepRequests(entryId, last, picks);
      assert Requests(PicksEffects(entryId, last, picks)) == before + [FetchPicks(entryId, last)];
    }
  }

  /** One gameweek's picks steps make exactly one request. */
  lemma PicksStepRequests(entryId: int, gameweek: int, picks: map<(int, int), Picks>)
    ensures Requests(PicksStep(entryId, gameweek, picks)) == [FetchPicks(entryId, gameweek)]
  {
    var request := FetchPicks(entryId, gameweek);
    RequestsGet(request);
    if (entryId, gameweek) in picks {
      var rows := [PicksRow(entryId, gameweek, picks[(entryId, gameweek)])];
      RequestsInsert(PicksTable, rows);
      RequestsAppend([Get(request)], [Insert(PicksTable, rows)]);
    }
  }

  lemma RowsIntoGet(table: Table, request: Request)
    ensures RowsInto(table, [Get(request)]) == []
  {
    assert [Get(request)][1..] == [];
  }

  lemma RowsIntoInsert(table: Table, target: Table, rows: seq<Row>)
    ensures RowsInto(table, [Insert(target, rows)]) == if table == target then rows else []
  {
    assert [Insert(target, rows)][1..] == [];
  }

  lemma RequestsGet(request: Request)
    ensures Requests([Get(request)]) == [request]
  {
    assert [Get(request)][1..] == [];
  }

  lemma RequestsInsert(table: Table, rows: seq<Row>)
    ensures Requests([Insert(table, rows)]) == []
  {
    assert [Insert(table, rows)][1..] == [];
  }

  /** The picks steps insert one picks row per fetched gameweek, into the picks table only. */
  lemma {:induction false} PicksRows(entryId: int, last: int, picks: map<(int, int), Picks>, other: Table)
    requires other != PicksTable
    ensures |RowsInto(PicksTable, PicksEffects(entryId, last, picks))| == PicksCount(entryId, last, picks)
    ensures RowsInto(other, PicksEffects(entryId, last, picks)) == []
    ensures PicksCount(entryId, last, picks) <= if last < 0 then 0 else last
    decreases if last < 0 then 0 else last
  {
    if last > 0 {
      PicksRows(entryId, last - 1, picks, other);
      var step := PicksStep(entryId, last, picks);
      var get := [Get(FetchPicks(entryId, last))];
      RowsIntoAppend(PicksTable, PicksEffects(entryId, last - 1, picks), step);
      RowsIntoAppend(other, PicksEffects(entryId, last - 1, picks), step);
      RowsIntoGet(PicksTable, get[0].request);
      RowsIntoGet(other, get[0].request);
      if (entryId, last) in picks {
        var insert := [Insert(PicksTable, [PicksRow(entryId, last, picks[(entryId, last)])])];
        RowsIntoAppend(PicksTable, get, insert);
        RowsIntoAppend(other, get, insert);
        RowsIntoInsert(PicksTable, PicksTable, insert[0].rows);
        RowsIntoInsert(other, PicksTable, insert[0].rows);
      } else {
        assert step == get;
      }
    }
  }

  /**
   * The standings steps insert one manager row per standing plus its picks rows, all
   * into the picks table.
   */
  lemma {:induction false} StandingsRows(results: seq<Standing>, up: Upstream, leagueId: string, currentGw: Option<int>, other: Table)
    requires AllEntries(results, up.entries) && other != PicksTable
    ensures |RowsInto(PicksTable, StandingsEffects(results, up, leagueId, currentGw))|
      == |results| + StandingsPicks(results, up.picks, currentGw)
    ensures RowsInto(other, StandingsEffects(results, up, leagueId, currentGw)) == []
    decreases |results|
  {
    if |results| > 0 {
      var init := results[..|results| - 1];
      var s := results[|results| - 1];
      assert AllEntries(init, up.entries) by {
        forall i | 0 <= i < |init| ensures init[i].entry in up.entries {
          assert init[i] == results[i];
        }
      }
      StandingsRows(init, up, leagueId, currentGw, other);
      var one := StandingEffects(s, up, leagueId, currentGw);
      RowsIntoAppend(PicksTable, StandingsEffects(init, up, leagueId, currentGw), one);
      RowsIntoAppend(other, StandingsEffects(init, up, leagueId, currentGw), one);
      var head := [Get(FetchEntry(s.entry)), Insert(PicksTable, [ManagerRow(s.entry, up.entries[s.entry], leagueId)])];
      var picksPart := if currentGw.Some? then PicksEffects(s.entry, currentGw.value, up.picks) else [];
      assert one == head + picksPart;
      RowsIntoAppend(PicksTable, head, picksPart);
      RowsIntoAppend(other, head, picksPart);
      PairRows(PicksTable, FetchEntry(s.entry), PicksTable, ManagerRow(s.entry, up.entries[s.entry], leagueId));
      PairRows(other, FetchEntry(s.entry), PicksTable, ManagerRow(s.entry, up.entries[s.entry], leagueId));
      if currentGw.Some? {
        PicksRows(s.entry, currentGw.value, up.picks, other);
      }
      if currentGw.None? {
        assert StandingsPicks(results, up.picks, currentGw) == 0;
        assert StandingsPicks(init, up.picks, currentGw) == 0;
      }
    }
  }

  /** The bootstrap table receives the team, player and event rows, in that order, and nothing else does. */
  lemma BootstrapRows(b: Bootstrap, other: Table)
    requires other != BootstrapTable
    ensures RowsInto(BootstrapTable, BootstrapLog(b)) == TeamRows(b.teams) + PlayerRows(b.elements) + EventRows(b.events)
    ensures RowsInto(other, BootstrapLog(b)) == []
  {
    var get := [Get(FetchBootstrap)];
    var teams := InsertIfAny(BootstrapTable, TeamRows(b.teams));
    var batches := Batches(PlayerRows(b.elements), BatchSize);
    var players := BatchInserts(BootstrapTable, batches);
    var events := InsertIfAny(BootstrapTable, EventRows(b.events));
    assert BootstrapLog(b) == get + teams + players + events;
    RowsInto4(BootstrapTable, get, teams, players, events);
    RowsInto4(other, get, teams, players, events);
    InsertIfAnyRows(BootstrapTable, other, TeamRows(b.teams));
    InsertIfAnyRows(BootstrapTable, other, EventRows(b.events));
    BatchInsertsRows(BootstrapTable, other, batches);
    BatchesFlatten(PlayerRows(b.elements), BatchSize);
    RowsIntoGet(BootstrapTable, FetchBootstrap);
    RowsIntoGet(other, FetchBootstrap);
  }

  lemma RowsInto4(table: Table, a: seq<Effect>, b: seq<Effect>, c: seq<Effect>, d: seq<Effect>)
    ensures RowsInto(table, a + b + c + d) == RowsInto(table, a) + RowsInto(table, b) + RowsInto(table, c) + RowsInto(table, d)
  {
    RowsIntoAppend(table, a + b + c, d);
    RowsIntoAppend(table, a + b, c);
    RowsIntoAppend(table, a, b);
  }

  /** The per-round table receives the rows of every fetched player, only with a current gameweek. */
  lemma StatsRows(b: Bootstrap, summaries: map<int, PlayerSummary>, other: Table)
    requires other != PlayerRoundTable
    ensures RowsInto(PlayerRoundTable, StatsLog(b, summaries))
      == if CurrentGameweek(b).Some? then StatRows(b.elements, summaries) else []
    ensures RowsInto(other, StatsLog(b, summaries)) == []
  {
    if CurrentGameweek(b).Some? {
      var gets := SummaryGets(b.elements);
      var batches := Batches(StatRows(b.elements, summaries), BatchSize);
      GetsInsertNothing(gets, PlayerRoundTable);
      GetsInsertNothing(gets, other);
      BatchInsertsRows(PlayerRoundTable, other, batches);
      BatchesFlatten(StatRows(b.elements, summaries), BatchSize);
      RowsIntoAppend(PlayerRoundTable, gets, BatchInserts(PlayerRoundTable, batches));
      RowsIntoAppend(other, gets, BatchInserts(PlayerRoundTable, batches));
    }
  }

  lemma {:induction false} GetsInsertNothing(log: seq<Effect>, table: Table)
    requires forall i :: 0 <= i < |log| ==> log[i].Get?
    ensures RowsInto(table, log) == []
    decreases |log|
  {
    if |log| > 0 {
      GetsInsertNothing(log[1..], table);
    }
  }

  /** Step 3 writes the league row to the league table and the standings to the picks table. */
  lemma LeagueRows(up: Upstream, leagueId: string, currentGw: Option<int>, other: Table)
    requires other != PicksTable && other != LeagueTable
    ensures leagueId !in up.leagues ==> RowsInto(LeagueTable, LeagueLog(up, leagueId, currentGw)) == []
    ensures leagueId in up.leagues ==>
      RowsInto(LeagueTable, LeagueLog(up, leagueId, currentGw)) == [LeagueRow(leagueId, up.leagues[leagueId].leagueName)]
    ensures leagueId in up.leagues ==>
      var results := ResultsOf(up.leagues[leagueId]);
      var k := FirstMissing(results, up.entries);
      |RowsInto(PicksTable, LeagueLog(up, leagueId, currentGw))| == k + StandingsPicks(results[..k], up.picks, currentGw)
    ensures leagueId !in up.leagues ==> RowsInto(PicksTable, LeagueLog(up, leagueId, currentGw)) == []
    ensures RowsInto(other, LeagueLog(up, leagueId, currentGw)) == []
  {
    if leagueId !in up.leagues {
      var get := [Get(FetchLeague(leagueId))];
      assert LeagueLog(up, leagueId, currentGw) == get;
      RowsIntoGet(LeagueTable, get[0].request);
      RowsIntoGet(PicksTable, get[0].request);
      RowsIntoGet(other, get[0].request);
    } else {
      var results := ResultsOf(up.leagues[leagueId]);
      var k := FirstMissing(results, up.entries);
      LeagueRowsFound(up, leagueId, currentGw, LeagueTable);
      LeagueRowsFound(up, leagueId, currentGw, PicksTable);
      LeagueRowsFound(up, leagueId, currentGw, other);
      StandingsRows(results[..k], up, leagueId, currentGw, other);
      StandingsRows(results[..k], up, leagueId, currentGw, LeagueTable);
    }
  }

  /** With the league fetched, a table receives the league row (if it is the league table) and the standings rows. */
  lemma LeagueRowsFound(up: Upstream, leagueId: string, currentGw: Option<int>, table: Table)
    requires leagueId in up.leagues
    ensures
      var results := ResultsOf(up.leagues[leagueId]);
      var k := FirstMissing(results, up.entries);
      RowsInto(table, LeagueLog(up, leagueId, currentGw))
        == (if table == LeagueTable then [LeagueRow(leagueId, up.leagues[leagueId].leagueName)] else [])
          + RowsInto(table, StandingsEffects(results[..k], up, leagueId, currentGw))
  {
    var results := ResultsOf(up.leagues[leagueId]);
    var row := LeagueRow(leagueId, up.leagues[leagueId].leagueName);
    var request := FetchLeague(leagueId);
    var head := [Get(request), Insert(LeagueTable, [row])];
    var standings := StandingsLog(results, up, leagueId, currentGw);
    assert LeagueLog(up, leagueId, currentGw) == head + standings;
    RowsIntoAppend(table, head, standings);
    PairRows(table, request, LeagueTable, row);
    StandingsLogRows(results, up, leagueId, currentGw, table);
  }

  /** The request that ends the standings loop inserts nothing. */
  lemma StandingsLogRows(results: seq<Standing>, up: Upstream, leagueId: string, currentGw: Option<int>, table: Table)
    ensures
      var k := FirstMissing(results, up.entries);
      RowsInto(table, StandingsLog(results, up, leagueId, currentGw))
        == RowsInto(table, StandingsEffects(results[..k], up, leagueId, currentGw))
  {
    var k := FirstMissing(results, up.entries);
    var standings := StandingsEffects(results[..k], up, leagueId, currentGw);
    var tail := if k < |results| then [Get(FetchEntry(results[k].entry))] else [];
    assert StandingsLog(results, up, leagueId, currentGw) == standings + tail;
    RowsIntoAppend(table, standings, tail);
    GetsInsertNothing(tail, table);
  }

  /** A request followed by a one-row insert contributes that row to its table only. */
  lemma PairRows(table: Table, request: Request, target: Table, row: Row)
    ensures RowsInto(table, [Get(request), Insert(target, [row])]) == if table == target then [row] else []
  {
    var pair := [Get(request), Insert(target, [row])];
    assert pair[1..] == [Insert(target, [row])];
    RowsIntoInsert(table, target, [row]);
  }

  /**
   * Whatever the outcome, the counts in the report are the numbers of rows the run
   * wrote: teams, players and gameweeks to the bootstrap table, player rounds to the
   * per-round table, the league row, and managers plus picks to the picks table.
   */
  lemma RunStatsCountRows(up: Upstream, b: Bootstrap, leagueId: Option<string>)
    ensures
      var stats := RunReport(up, b, leagueId).stats;
      var log := RunLog(up, b, leagueId);
      && |RowsInto(BootstrapTable, log)| == stats.teams + stats.players + stats.gameweeks
      && |RowsInto(PlayerRoundTable, log)| == stats.playerStats
      && |RowsInto(LeagueTable, log)| == stats.leagues
      && |RowsInto(PicksTable, log)| == stats.managers + stats.picks
  {
    var league := if leagueId.Some? then LeagueLog(up, leagueId.value, CurrentGameweek(b)) else [];
    var log := RunLog(up, b, leagueId);
    BootstrapRows(b, PlayerRoundTable);
    BootstrapRows(b, LeagueTable);
    BootstrapRows(b, PicksTable);
    StatsRows(b, up.summaries, BootstrapTable);
    StatsRows(b, up.summaries, LeagueTable);
    StatsRows(b, up.summaries, PicksTable);
    if leagueId.Some? {
      LeagueRows(up, leagueId.value, CurrentGameweek(b), BootstrapTable);
      LeagueRows(up, leagueId.value, CurrentGameweek(b), PlayerRoundTable);
    }
    forall t | t in {BootstrapTable, PlayerRoundTable, LeagueTable, PicksTable}
      ensures RowsInto(t, log)
        == RowsInto(t, BootstrapLog(b)) + RowsInto(t, StatsLog(b, up.summaries)) + RowsInto(t, league)
    {
      RowsIntoAppend(t, BootstrapLog(b), StatsLog(b, up.summaries));
      RowsIntoAppend(t, BootstrapLog(b) + StatsLog(b, up.summaries), league);
    }
  }

  /** A run succeeds exactly when the bootstrap data, the league and every entry can be fetched. */
  lemma RunSucceeds(up: Upstream, leagueId: Option<string>)
    requires up.bootstrap.Some?
    ensures RunReport(up, up.bootstrap.value, leagueId).status == Succeeded <==> Completes(up, leagueId)
  {
    if leagueId.Some? && leagueId.value in up.leagues {
      var results := ResultsOf(up.leagues[leagueId.value]);
      var k := FirstMissing(results, up.entries);
      if k < |results| {
        assert !AllEntries(results, up.entries);
      }
    }
  }

  /** Without a league id no league, manager or picks row is written and the run succeeds. */
  lemma RunWithoutLeague(up: Upstream, b: Bootstrap)
    ensures RunReport(up, b, None).status == Succeeded
    ensures RowsInto(LeagueTable, RunLog(up, b, None)) == []
    ensures RowsInto(PicksTable, RunLog(up, b, None)) == []
  {
    RunStatsCountRows(up, b, None);
  }

  /** Without a current gameweek no player summary or picks is requested and no round row is written. */
  lemma RunWithoutCurrentGameweek(up: Upstream, b: Bootstrap, leagueId: Option<string>)
    requires CurrentGameweek(b).None?
    ensures RowsInto(PlayerRoundTable, RunLog(up, b, leagueId)) == []
    ensures RunReport(up, b, leagueId).stats.picks == 0
    ensures RunReport(up, b, leagueId).stats.playerStats == 0
  {
    RunStatsCountRows(up, b, leagueId);
  }

  /** The `key` column of each kind of row, as the function formats it. */
  lemma RowKeys(t: Team, p: Player, e: Event, playerId: int, r: PlayerRound, leagueId: string,
                entryId: int, entry: Entry, gameweek: int, picks: Picks)
    ensures TeamRow(t).Key() == "team_" + IntToString(t.id)
    ensures PlayerRow(p).Key() == "player_" + IntToString(p.id)
    ensures EventRow(e).Key() == "gameweek_" + IntToString(e.id)
    ensures PlayerRoundRow(playerId, r).Key() == "player_" + IntToString(playerId) + "_gw_" + IntToString(r.round)
    ensures LeagueRow(leagueId, None).Key() == "league_" + leagueId
    ensures ManagerRow(entryId, entry, leagueId).Key() == "manager_" + IntToString(entryId)
    ensures PicksRow(entryId, gameweek, picks).Key() == "manager_" + IntToString(entryId) + "_gw_" + IntToString(gameweek)
  {
  }

  /**
   * Teams, players and gameweeks share the bootstrap table, yet two of their rows get
   * the same key only when they are the same kind of row with the same id.
   */
  lemma BootstrapKeysDistinct(t1: Team, t2: Team, p1: Player, p2: Player, e1: Event, e2: Event)
    ensures TeamRow(t1).Key() != PlayerRow(p1).Key()
    ensures TeamRow(t1).Key() != EventRow(e1).Key()
    ensures PlayerRow(p1).Key() != EventRow(e1).Key()
    ensures TeamRow(t1).Key() == TeamRow(t2).Key() <==> t1.id == t2.id
    ensures PlayerRow(p1).Key() == PlayerRow(p2).Key() <==> p1.id == p2.id
    ensures EventRow(e1).Key() == EventRow(e2).Key() <==> e1.id == e2.id
  {
    KeyOfInjective(TeamRecord(t1.id), PlayerRecord(p1.id));
    KeyOfInjective(TeamRecord(t1.id), GameweekRecord(e1.id));
    KeyOfInjective(PlayerRecord(p1.id), GameweekRecord(e1.id));
    KeyOfInjective(TeamRecord(t1.id), TeamRecord(t2.id));
    KeyOfInjective(PlayerRecord(p1.id), PlayerRecord(p2.id));
    KeyOfInjective(GameweekRecord(e1.id), GameweekRecord(e2.id));
  }

  /**
   * Manager rows and picks rows share the picks table: a manager row never has a picks
   * row's key, and two picks rows share a key only for the same manager and gameweek.
   */
  lemma PicksKeysDistinct(m: int, e1: int, g1: int, e2: int, g2: int, p1: Picks, p2: Picks, entry: Entry, leagueId: string)
    ensures ManagerRow(m, entry, leagueId).Key() != PicksRow(e1, g1, p1).Key()
    ensures PicksRow(e1, g1, p1).Key() == PicksRow(e2, g2, p2).Key() <==> e1 == e2 && g1 == g2
  {
    KeyOfInjective(ManagerRecord(m), ManagerRoundRecord(e1, g1));
    KeyOfInjective(ManagerRoundRecord(e1, g1), ManagerRoundRecord(e2, g2));
  }

  /** Per-round rows share a key only for the same player and round. */
  lemma PlayerRoundKeysDistinct(p1: int, r1: PlayerRound, p2: int, r2: PlayerRound)
    ensures PlayerRoundRow(p1, r1).Key() == PlayerRoundRow(p2, r2).Key() <==> p1 == p2 && r1.round == r2.round
  {
    KeyOfInjective(PlayerRoundRecord(p1, r1.round), PlayerRoundRecord(p2, r2.round));
  }
}
