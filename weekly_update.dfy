/**
 * The weekly update function
 * (modules/fantasy-football/functions/fpl_weekly_update/handler.py): it reads the
 * bootstrap data, one league's standings and every manager's history, and applies
 * team, gameweek, player, manager and per-gameweek performance nodes to the data
 * model in space `fantasy_football`.
 *
 * The upstream is an `Upstream` value and every request is recorded as a `Get`;
 * every write to the data model is recorded as an `Apply` in the returned log.
 */
module WeeklyUpdate {
  import opened Wrappers
  import opened Strings
  import opened FplApi
  import opened Keys
  import opened Endpoints
  import opened Analytics

  const Space: string := "fantasy_football"

  /** The league read when neither the payload nor the environment names one. */
  const DefaultLeagueId: string := "sl9tyc"

  /** A node of the data model, one constructor per view, with its external id. */
  datatype Node =
    | TeamNode(externalId: string, teamId: int, name: string, shortName: string, strength: int)
    | GameweekNode(
        externalId: string, gameweekNumber: int, name: string, deadline: string,
        isFinished: bool, isCurrent: bool, averageScore: int, highestScore: int)
    | PlayerNode(
        externalId: string, playerId: int, webName: string, firstName: string, lastName: string,
        team: string, position: string, currentPrice: real, totalPoints: int,
        form: Option<string>, selectedByPercent: Option<string>, pointsPerGame: Option<string>)
    | ManagerNode(
        externalId: string, entryId: int, managerName: string, teamName: string,
        overallPoints: int, overallRank: int, leagueRank: int, teamValue: real,
        analysis: Analysis, transferSuccessRate: real, successfulTransfers: int)
    | PerformanceNode(
        externalId: string, manager: string, gameweek: string, points: int, totalPoints: int,
        gameweekRank: int, overallRank: int, transfers: int, transferCost: int,
        teamValue: real, bank: real)

  /** What the function does to the outside world, in order. */
  datatype Effect = Get(url: string) | Apply(nodes: seq<Node>)

  datatype Status = Succeeded | Failed

  datatype Stats = Stats(
    teams: nat, gameweeks: nat, managers: nat, performance: nat, players: nat, teamBetting: nat)

  const NoStats: Stats := Stats(0, 0, 0, 0, 0, 0)

  datatype Report = Report(status: Status, stats: Stats)

  /** `data.get("league_id") or os.getenv("FPL_LEAGUE_ID", "sl9tyc")`. */
  function LeagueId(payload: Option<string>, env: Option<string>): (id: string)
    ensures payload.Some? && payload.value != "" ==> id == payload.value
    ensures (payload.None? || payload.value == "") && env.Some? ==> id == env.value
    ensures (payload.None? || payload.value == "") && env.None? ==> id == DefaultLeagueId
  {
    if payload.Some? && payload.value != "" then payload.value
    else env.GetOr(DefaultLeagueId)
  }

  /** `position_map.get(element_type, "Unknown")`. */
  function PositionName(elementType: int): (name: string)
    ensures name != "Unknown" <==> 1 <= elementType <= 4
    ensures elementType == 1 ==> name == "GK"
    ensures elementType == 2 ==> name == "DEF"
    ensures elementType == 3 ==> name == "MID"
    ensures elementType == 4 ==> name == "FWD"
  {
    if elementType == 1 then "GK"
    else if elementType == 2 then "DEF"
    else if elementType == 3 then "MID"
    else if elementType == 4 then "FWD"
    else "Unknown"
  }

  /**
   * A numeric text field read as `float(x) if x else 0.0`: the text to parse, or None
   * for 0.0 when the field is missing or empty.
   */
  function NumericText(field: Option<string>): Option<string> {
    if field.Some? && field.value != "" then field else None
  }

  function TeamNodeOf(t: Team): Node {
    TeamNode(TeamKey(t.id), t.id, t.name, t.shortName, t.strength.GetOr(0))
  }

  function GameweekNodeOf(e: Event): Node {
    GameweekNode(
      GameweekKey(e.id), e.id, e.name, e.deadlineTime, e.finished, e.isCurrent,
      e.averageEntryScore.GetOr(0), e.highestScore.GetOr(0))
  }

  function PlayerNodeOf(p: Player): Node {
    PlayerNode(
      PlayerKey(p.id), p.id, p.webName, p.firstName, p.secondName, TeamKey(p.team),
      PositionName(p.elementType), Tenths(p.nowCost), p.totalPoints,
      NumericText(p.form), NumericText(p.selectedByPercent), NumericText(p.pointsPerGame))
  }

  /**
   * The manager node: names and league rank from the standing, overall points, rank
   * and team value from the FIRST row of the history, analytics from all rows.
   */
  function ManagerNodeOf(s: Standing, history: seq<EntryRound>, sqrt: real -> real): Node {
    var first := if |history| > 0 then Some(history[0]) else None;
    ManagerNode(
      ManagerKey(s.entry), s.entry, s.playerName, s.entryName,
      if first.Some? then first.value.totalPoints else 0,
      if first.Some? then first.value.rank else 0,
      s.rank,
      if first.Some? then Tenths(first.value.value) else 0.0,
      Analyse(history, sqrt), 0.0, 0)
  }

  function PerformanceNodeOf(entryId: int, gw: EntryRound): Node {
    PerformanceNode(
      PerformanceKey(entryId, gw.event), ManagerKey(entryId), GameweekKey(gw.event),
      gw.points, gw.totalPoints, gw.rank, gw.overallRank.GetOr(0),
      gw.eventTransfers.GetOr(0), gw.eventTransfersCost.GetOr(0),
      Tenths(gw.value), Tenths(gw.bank))
  }

  function TeamNodes(teams: seq<Team>): seq<Node> {
    seq(|teams|, k requires 0 <= k < |teams| => TeamNodeOf(teams[k]))
  }

  function GameweekNodes(events: seq<Event>): seq<Node> {
    seq(|events|, k requires 0 <= k < |events| => GameweekNodeOf(events[k]))
  }

  function PlayerNodes(players: seq<Player>): seq<Node> {
    seq(|players|, k requires 0 <= k < |players| => PlayerNodeOf(players[k]))
  }

  /** One performance node per history row, in order. */
  function PerformanceNodes(entryId: int, history: seq<EntryRound>): seq<Node> {
    seq(|history|, k requires 0 <= k < |history| => PerformanceNodeOf(entryId, history[k]))
  }

  /** Every standing's history was fetched. */
  predicate AllHistories(results: seq<Standing>, histories: map<int, EntryHistory>) {
    forall i :: 0 <= i < |results| ==> results[i].entry in histories
  }

  function ManagerNodes(results: seq<Standing>, histories: map<int, EntryHistory>, sqrt: real -> real): seq<Node>
    requires AllHistories(results, histories)
  {
    seq(|results|, k requires 0 <= k < |results| =>
      ManagerNodeOf(results[k], histories[results[k].entry].current, sqrt))
  }

  /** The performance nodes of all standings, standing by standing. */
  function PerformanceNodesFor(results: seq<Standing>, histories: map<int, EntryHistory>): seq<Node>
    requires AllHistories(results, histories)
  {
    if |results| == 0 then []
    else
      var last := results[|results| - 1];
      PerformanceNodesFor(results[..|results| - 1], histories)
        + PerformanceNodes(last.entry, histories[last.entry].current)
  }

  /** The history requests, one per standing, in order. */
  function HistoryGets(results: seq<Standing>): seq<Effect> {
    seq(|results|, k requires 0 <= k < |results| => Get(Url(EntryHistoryPath(results[k].entry))))
  }

  /** `if nodes: apply(nodes)`. */
  function ApplyIfAny(nodes: seq<Node>): seq<Effect> {
    if |nodes| > 0 then [Apply(nodes)] else []
  }

  /** The effects of steps 1 to 4: the bootstrap request and the three bootstrap applies. */
  function BootstrapEffects(b: Bootstrap): seq<Effect> {
    [Get(Url(BootstrapStaticPath))]
      + ApplyIfAny(TeamNodes(b.teams)) + ApplyIfAny(GameweekNodes(b.events))
      + ApplyIfAny(PlayerNodes(b.elements))
  }

  /** The run completes: every request it makes succeeds. */
  predicate Completes(up: Upstream, leagueId: string) {
    && up.bootstrap.Some?
    && leagueId in up.leagues
    && up.leagues[leagueId].results.Some?
    && AllHistories(up.leagues[leagueId].results.value, up.histories)
  }

  /** Every node the log applies is a team, gameweek or player node. */
  predicate OnlyBootstrapNodes(log: seq<Effect>) {
    forall k :: 0 <= k < |log| && log[k].Apply? ==>
      forall j :: 0 <= j < |log[k].nodes| ==>
        log[k].nodes[j].TeamNode? || log[k].nodes[j].GameweekNode? || log[k].nodes[j].PlayerNode?
  }

  // ---------------------------------------------------------------------------
  // The loops of `handle`

  method CollectTeamNodes(teams: seq<Team>) returns (nodes: seq<Node>)
    ensures nodes == TeamNodes(teams)
  {
    nodes := [];
    var i := 0;
    while i < |teams|
      invariant 0 <= i <= |teams|
      invariant |nodes| == i
      invariant forall k :: 0 <= k < i ==> nodes[k] == TeamNodeOf(teams[k])
    {
      nodes := nodes + [TeamNodeOf(teams[i])];
      i := i + 1;
    }
  }

  method CollectGameweekNodes(events: seq<Event>) returns (nodes: seq<Node>)
    ensures nodes == GameweekNodes(events)
  {
    nodes := [];
    var i := 0;
    while i < |events|
      invariant 0 <= i <= |events|
      invariant |nodes| == i
      invariant forall k :: 0 <= k < i ==> nodes[k] == GameweekNodeOf(events[k])
    {
      nodes := nodes + [GameweekNodeOf(events[i])];
      i := i + 1;
    }
  }

  method CollectPlayerNodes(players: seq<Player>) returns (nodes: seq<Node>)
    ensures nodes == PlayerNodes(players)
  {
    nodes := [];
    var i := 0;
    while i < |players|
      invariant 0 <= i <= |players|
      invariant |nodes| == i
      invariant forall k :: 0 <= k < i ==> nodes[k] == PlayerNodeOf(players[k])
    {
      nodes := nodes + [PlayerNodeOf(players[i])];
      i := i + 1;
    }
  }

  /** The inner loop: one performance node per history row, appended in order. */
  method AppendPerformance(performance: seq<Node>, entryId: int, history: seq<EntryRound>)
    returns (out: seq<Node>)
    ensures out == performance + PerformanceNodes(entryId, history)
  {
    out := performance;
    var j := 0;
    while j < |history|
      invariant 0 <= j <= |history|
      invariant |out| == |performance| + j
      invariant out[..|performance|] == performance
      invariant forall k :: 0 <= k < j ==> out[|performance| + k] == PerformanceNodeOf(entryId, history[k])
    {
      out := out + [PerformanceNodeOf(entryId, history[j])];
      j := j + 1;
    }
  }

  /**
   * Step 6: for each standing, fetch the history and build the manager node and the
   * performance nodes. The first history that cannot be fetched ends the loop; `gets`
   * holds the history requests made up to and including that one.
   */
  method CollectManagers(results: seq<Standing>, histories: map<int, EntryHistory>, sqrt: real -> real)
    returns (ok: bool, managers: seq<Node>, performance: seq<Node>, gets: seq<Effect>)
    ensures ok <==> AllHistories(results, histories)
    ensures ok ==> managers == ManagerNodes(results, histories, sqrt)
    ensures ok ==> performance == PerformanceNodesFor(results, histories)
    ensures ok ==> gets == HistoryGets(results)
    ensures forall k :: 0 <= k < |gets| ==> gets[k].Get?
  {
    managers, performance, gets := [], [], [];
    var i := 0;
    while i < |results|
      invariant 0 <= i <= |results|
      invariant AllHistories(results[..i], histories)
      invariant managers == ManagerNodes(results[..i], histories, sqrt)
      invariant performance == PerformanceNodesFor(results[..i], histories)
      invariant gets == HistoryGets(results[..i])
    {
      var entryId := results[i].entry;
      gets := gets + [Get(Url(EntryHistoryPath(entryId)))];
      var fetched := Fetch(histories, entryId);
      if fetched.None? {
        return false, managers, performance, gets;
      }
      var history := fetched.value.current;
      StandingsSnoc(results, i, histories, sqrt);
      managers := managers + [ManagerNodeOf(results[i], history, sqrt)];
      performance := AppendPerformance(performance, entryId, history);
      i := i + 1;
    }
    assert results[..i] == results;
    ok := true;
  }

  /** Extending the processed standings by one extends every accumulated list by its part. */
  lemma StandingsSnoc(results: seq<Standing>, i: nat, histories: map<int, EntryHistory>, sqrt: real -> real)
    requires i < |results|
    requires AllHistories(results[..i], histories) && results[i].entry in histories
    ensures AllHistories(results[..i + 1], histories)
    ensures ManagerNodes(results[..i + 1], histories, sqrt)
      == ManagerNodes(results[..i], histories, sqrt)
        + [ManagerNodeOf(results[i], histories[results[i].entry].current, sqrt)]
    ensures PerformanceNodesFor(results[..i + 1], histories)
      == PerformanceNodesFor(results[..i], histories)
        + PerformanceNodes(results[i].entry, histories[results[i].entry].current)
    ensures HistoryGets(results[..i + 1]) == HistoryGets(results[..i]) + [Get(Url(EntryHistoryPath(results[i].entry)))]
  {
    var s, x := results[..i], results[i];
    assert results[..i + 1] == s + [x];
    AllHistoriesSnoc(s, x, histories);
    ManagerNodesSnoc(s, x, histories, sqrt);
    PerformanceNodesForSnoc(s, x, histories);
    HistoryGetsSnoc(s, x);
  }

  lemma AllHistoriesSnoc(s: seq<Standing>, x: Standing, histories: map<int, EntryHistory>)
    requires AllHistories(s, histories) && x.entry in histories
    ensures AllHistories(s + [x], histories)
  {
    forall k | 0 <= k < |s + [x]| ensures (s + [x])[k].entry in histories {
      if k < |s| {
        assert (s + [x])[k] == s[k];
      }
    }
  }

  lemma ManagerNodesSnoc(s: seq<Standing>, x: Standing, histories: map<int, EntryHistory>, sqrt: real -> real)
    requires AllHistories(s, histories) && x.entry in histories && AllHistories(s + [x], histories)
    ensures ManagerNodes(s + [x], histories, sqrt)
      == ManagerNodes(s, histories, sqrt) + [ManagerNodeOf(x, histories[x.entry].current, sqrt)]
  {
    var t := s + [x];
    forall k | 0 <= k < |s| ensures t[k] == s[k] { }
  }

  lemma PerformanceNodesForSnoc(s: seq<Standing>, x: Standing, histories: map<int, EntryHistory>)
    requires AllHistories(s, histories) && x.entry in histories && AllHistories(s + [x], histories)
    ensures PerformanceNodesFor(s + [x], histories)
      == PerformanceNodesFor(s, histories) + PerformanceNodes(x.entry, histories[x.entry].current)
  {
    assert (s + [x])[..|s|] == s;
  }

  lemma HistoryGetsSnoc(s: seq<Standing>, x: Standing)
    ensures HistoryGets(s + [x]) == HistoryGets(s) + [Get(Url(EntryHistoryPath(x.entry)))]
  {
    var t := s + [x];
    forall k | 0 <= k < |s| ensures t[k] == s[k] { }
  }

  /** Steps 2 to 4: build and apply the team, gameweek and player nodes. */
  method LoadBootstrap(bootstrap: Bootstrap) returns (stats: Stats, applies: seq<Effect>)
    ensures applies == BootstrapEffects(bootstrap)[1..]
    ensures stats == NoStats.(teams := |bootstrap.teams|, gameweeks := |bootstrap.events|, players := |bootstrap.elements|)
  {
    stats := NoStats;
    applies := [];
    var teamNodes := CollectTeamNodes(bootstrap.teams);
    if |teamNodes| > 0 {
      applies := applies + [Apply(teamNodes)];
      stats := stats.(teams := |teamNodes|);
    }
    var gameweekNodes := CollectGameweekNodes(bootstrap.events);
    if |gameweekNodes| > 0 {
      applies := applies + [Apply(gameweekNodes)];
      stats := stats.(gameweeks := |gameweekNodes|);
    }
    var playerNodes := CollectPlayerNodes(bootstrap.elements);
    if |playerNodes| > 0 {
      applies := applies + [Apply(playerNodes)];
      stats := stats.(players := |playerNodes|);
    }
    assert [Get(Url(BootstrapStaticPath))] + applies == BootstrapEffects(bootstrap);
  }

  /** The log of a run that completes. */
  function CompletedLog(up: Upstream, leagueId: string, sqrt: real -> real): seq<Effect>
    requires Completes(up, leagueId)
  {
    var results := up.leagues[leagueId].results.value;
    BootstrapEffects(up.bootstrap.value) + [Get(Url(LeaguePath(leagueId)))]
      + HistoryGets(results)
      + ApplyIfAny(ManagerNodes(results, up.histories, sqrt))
      + ApplyIfAny(PerformanceNodesFor(results, up.histories))
  }

  /** The stats of a run that completes. */
  function CompletedStats(up: Upstream, leagueId: string): Stats
    requires Completes(up, leagueId)
  {
    var b := up.bootstrap.value;
    var results := up.leagues[leagueId].results.value;
    Stats(|b.teams|, |b.events|, |results|, |PerformanceNodesFor(results, up.histories)|, |b.elements|, 0)
  }

  /**
   * `handle`: any failed request ends the run with status error and the stats
   * gathered so far. Managers and performance records are applied only after every
   * history has been read, so a failure never leaves a partial manager set.
   */
  method Handle(payloadLeagueId: Option<string>, envLeagueId: Option<string>, up: Upstream, sqrt: real -> real)
    returns (report: Report, log: seq<Effect>)
    ensures |log| > 0 && log[0] == Get(Url(BootstrapStaticPath))
    ensures report.status == Succeeded <==> Completes(up, LeagueId(payloadLeagueId, envLeagueId))
    ensures up.bootstrap.None? ==> report == Report(Failed, NoStats) && log == [Get(Url(BootstrapStaticPath))]
    ensures up.bootstrap.Some? ==>
      && report.stats.teams == |up.bootstrap.value.teams|
      && report.stats.gameweeks == |up.bootstrap.value.events|
      && report.stats.players == |up.bootstrap.value.elements|
      && report.stats.teamBetting == 0
    ensures report.status == Failed ==>
      report.stats.managers == 0 && report.stats.performance == 0 && OnlyBootstrapNodes(log)
    ensures report.status == Succeeded ==>
      && report.stats == CompletedStats(up, LeagueId(payloadLeagueId, envLeagueId))
      && log == CompletedLog(up, LeagueId(payloadLeagueId, envLeagueId), sqrt)
  {
    var leagueId := LeagueId(payloadLeagueId, envLeagueId);
    log := [Get(Url(BootstrapStaticPath))];
    if up.bootstrap.None? {
      return Report(Failed, NoStats), log;
    }
    var bootstrap := up.bootstrap.value;
    var stats, applies := LoadBootstrap(bootstrap);
    log := log + applies;
    assert log == BootstrapEffects(bootstrap);
    BootstrapNodesOnly(bootstrap);
    OnlyBootstrapNodesAppend(log, [Get(Url(LeaguePath(leagueId)))]);
    log := log + [Get(Url(LeaguePath(leagueId)))];

    var league := Fetch(up.leagues, leagueId);
    if league.None? || league.value.results.None? {
      return Report(Failed, stats), log;
    }
    var results := league.value.results.value;
    var ok, managerNodes, performanceNodes, gets := CollectManagers(results, up.histories, sqrt);
    OnlyBootstrapNodesAppend(log, gets);
    log := log + gets;
    if !ok {
      return Report(Failed, stats), log;
    }
    log := log + ApplyIfAny(managerNodes) + ApplyIfAny(performanceNodes);
    stats := stats.(managers := |managerNodes|, performance := |performanceNodes|);
    report := Report(Succeeded, stats);
  }

  lemma BootstrapNodesOnly(b: Bootstrap)
    ensures OnlyBootstrapNodes(BootstrapEffects(b))
  {
  }

  lemma OnlyBootstrapNodesAppend(log: seq<Effect>, more: seq<Effect>)
    requires OnlyBootstrapNodes(log)
    requires forall k :: 0 <= k < |more| ==> more[k].Get?
    ensures OnlyBootstrapNodes(log + more)
  {
    forall k | 0 <= k < |log + more| && (log + more)[k].Apply?
      ensures forall j :: 0 <= j < |(log + more)[k].nodes| ==>
        (log + more)[k].nodes[j].TeamNode? || (log + more)[k].nodes[j].GameweekNode? || (log + more)[k].nodes[j].PlayerNode?
    {
    }
  }

  // ---------------------------------------------------------------------------
  // Properties of the records

  /** The number of history rows of all standings. */
  function HistoryRows(results: seq<Standing>, histories: map<int, EntryHistory>): nat
    requires AllHistories(results, histories)
  {
    if |results| == 0 then 0
    else
      var last := results[|results| - 1];
      HistoryRows(results[..|results| - 1], histories) + |histories[last.entry].current|
  }

  /** Exactly one performance record per history row. */
  lemma {:induction false} PerformanceCount(results: seq<Standing>, histories: map<int, EntryHistory>)
    requires AllHistories(results, histories)
    ensures |PerformanceNodesFor(results, histories)| == HistoryRows(results, histories)
  {
    if |results| > 0 {
      var init := results[..|results| - 1];
      assert AllHistories(init, histories) by {
        forall i | 0 <= i < |init| ensures init[i].entry in histories {
          assert init[i] == results[i];
        }
      }
      PerformanceCount(init, histories);
    }
  }

  /**
   * The performance record of history row `k`: keyed `perf_{entry}_gw_{event}`, linked
   * to the manager and the gameweek, with value and bank converted from tenths.
   */
  lemma PerformanceRow(entryId: int, history: seq<EntryRound>, k: nat)
    requires k < |history|
    ensures |PerformanceNodes(entryId, history)| == |history|
    ensures var n := PerformanceNodes(entryId, history)[k];
      && n.externalId == PerformanceKey(entryId, history[k].event)
      && n.manager == ManagerKey(entryId)
      && n.gameweek == GameweekKey(history[k].event)
      && n.teamValue == (history[k].value as real) / 10.0
      && n.bank == (history[k].bank as real) / 10.0
      && n.overallRank == history[k].overallRank.GetOr(0)
      && n.points == history[k].points
      && n.totalPoints == history[k].totalPoints
      && n.gameweekRank == history[k].rank
      && n.transfers == history[k].eventTransfers.GetOr(0)
      && n.transferCost == history[k].eventTransfersCost.GetOr(0)
  {
  }

  /** Records of different gameweeks of one manager, or of different managers, never share a key. */
  lemma PerformanceKeysDistinct(e1: int, g1: int, e2: int, g2: int)
    ensures PerformanceKey(e1, g1) == PerformanceKey(e2, g2) <==> e1 == e2 && g1 == g2
  {
    KeyOfInjective(Keys.PerformanceRecord(e1, g1), Keys.PerformanceRecord(e2, g2));
  }

  /**
   * A manager's overall points, overall rank and team value come from the first row of
   * the history: rows after it do not change them.
   */
  lemma ManagerUsesFirstRow(s: Standing, first: EntryRound, later: seq<EntryRound>, sqrt: real -> real)
    ensures var n := ManagerNodeOf(s, [first] + later, sqrt);
      && n.overallPoints == first.totalPoints
      && n.overallRank == first.rank
      && n.teamValue == (first.value as real) / 10.0
      && n.leagueRank == s.rank
      && n.externalId == ManagerKey(s.entry)
    ensures var n := ManagerNodeOf(s, [first] + later, sqrt);
      var m := ManagerNodeOf(s, [first], sqrt);
      n.overallPoints == m.overallPoints && n.overallRank == m.overallRank && n.teamValue == m.teamValue
  {
  }

  /** A manager without history rows gets zero figures and no performance records. */
  lemma ManagerWithoutHistory(s: Standing, sqrt: real -> real)
    ensures var n := ManagerNodeOf(s, [], sqrt);
      n.overallPoints == 0 && n.overallRank == 0 && n.teamValue == 0.0
      && n.analysis == Analysis(0.0, 0.0, 0.0, 0.0, 0)
    ensures PerformanceNodes(s.entry, []) == []
  {
  }

  /**
   * A player node links to the node of its team and of no other team, and its price
   * gives back the API's cost in tenths.
   */
  lemma PlayerNodeLinks(p: Player, t: Team)
    ensures PlayerNodeOf(p).team == TeamNodeOf(t).externalId <==> p.team == t.id
    ensures PlayerNodeOf(p).currentPrice * 10.0 == p.nowCost as real
  {
    KeyOfInjective(TeamRecord(p.team), TeamRecord(t.id));
  }
}
