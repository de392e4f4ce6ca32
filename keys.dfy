/**
 * The key scheme shared by the raw rows of the ingestion function and the external
 * ids of the nodes the weekly update writes: a type prefix, then the natural id(s)
 * printed in decimal, joined with `_gw_` for the per-gameweek records.
 */
module Keys {
  import opened Strings

  function TeamKey(id: int): string {
    "team_" + IntToString(id)
  }

  function PlayerKey(id: int): string {
    "player_" + IntToString(id)
  }

  function GameweekKey(id: int): string {
    "gameweek_" + IntToString(id)
  }

  /** One player's figures in one round. */
  function PlayerRoundKey(playerId: int, round: int): string {
    "player_" + IntToString(playerId) + "_gw_" + IntToString(round)
  }

  /** League ids come from configuration as text and are used verbatim. */
  function LeagueKey(leagueId: string): string {
    "league_" + leagueId
  }

  function ManagerKey(entryId: int): string {
    "manager_" + IntToString(entryId)
  }

  /** One manager's picks in one gameweek (raw row). */
  function ManagerRoundKey(entryId: int, gameweek: int): string {
    "manager_" + IntToString(entryId) + "_gw_" + IntToString(gameweek)
  }

  /** One manager's performance in one gameweek (modelled node). */
  function PerformanceKey(entryId: int, gameweek: int): string {
    "perf_" + IntToString(entryId) + "_gw_" + IntToString(gameweek)
  }

  /** Every kind of record the two functions key, with its natural id(s). */
  datatype Record =
    | TeamRecord(teamId: int)
    | PlayerRecord(playerId: int)
    | GameweekRecord(gameweekId: int)
    | PlayerRoundRecord(playerId: int, round: int)
    | LeagueRecord(leagueId: string)
    | ManagerRecord(entryId: int)
    | ManagerRoundRecord(entryId: int, gameweek: int)
    | PerformanceRecord(entryId: int, gameweek: int)

  function KeyOf(r: Record): string {
    match r
    case TeamRecord(t) => TeamKey(t)
    case PlayerRecord(p) => PlayerKey(p)
    case GameweekRecord(g) => GameweekKey(g)
    case PlayerRoundRecord(p, round) => PlayerRoundKey(p, round)
    case LeagueRecord(l) => LeagueKey(l)
    case ManagerRecord(e) => ManagerKey(e)
    case ManagerRoundRecord(e, g) => ManagerRoundKey(e, g)
    case PerformanceRecord(e, g) => PerformanceKey(e, g)
  }

  /**
   * Keys never collide: two records have the same key exactly when they are the same
   * record, whatever their types and ids. In particular `player_{id}` never meets
   * `player_{p}_gw_{r}`, nor `manager_{e}` meets `manager_{e}_gw_{g}`, although each
   * pair shares a table.
   */
  lemma KeyOfInjective(a: Record, b: Record)
    ensures KeyOf(a) == KeyOf(b) <==> a == b
  {
    if KeyOf(a) == KeyOf(b) {
      SameKeySameRecord(a, b);
    }
  }

  lemma SameKeySameRecord(a: Record, b: Record)
    requires KeyOf(a) == KeyOf(b)
    ensures a == b
  {
    KeyHead(a);
    KeyHead(b);
    assert Head(a) == KeyOf(a)[..2] == KeyOf(b)[..2] == Head(b);
    match a
    case TeamRecord(t) =>
      PrefixIntThenSeparator("team_", t, "", b.teamId, "");
    case GameweekRecord(g) =>
      PrefixIntThenSeparator("gameweek_", g, "", b.gameweekId, "");
    case LeagueRecord(l) =>
      CommonPrefixTail("league_", l, b.leagueId);
    case PlayerRecord(_) =>
      PrefixIdsInjective("player_", a, b);
    case PlayerRoundRecord(_, _) =>
      PrefixIdsInjective("player_", a, b);
    case ManagerRecord(_) =>
      PrefixIdsInjective("manager_", a, b);
    case ManagerRoundRecord(_, _) =>
      PrefixIdsInjective("manager_", a, b);
    case PerformanceRecord(e, g) =>
      PrefixIdsInjective("perf_", a, b);
  }

  /** The first two characters of each kind of key. */
  function Head(r: Record): string {
    match r
    case TeamRecord(_) => "te"
    case PlayerRecord(_) => "pl"
    case GameweekRecord(_) => "ga"
    case PlayerRoundRecord(_, _) => "pl"
    case LeagueRecord(_) => "le"
    case ManagerRecord(_) => "ma"
    case ManagerRoundRecord(_, _) => "ma"
    case PerformanceRecord(_, _) => "pe"
  }

  lemma KeyHead(r: Record)
    ensures |KeyOf(r)| >= 2 && KeyOf(r)[..2] == Head(r)
  {
  }

  /** The first id of a record keyed by a prefix and one or two ids. */
  function FirstId(r: Record): int
    requires !r.TeamRecord? && !r.GameweekRecord? && !r.LeagueRecord?
  {
    match r
    case PlayerRecord(p) => p
    case PlayerRoundRecord(p, _) => p
    case ManagerRecord(e) => e
    case ManagerRoundRecord(e, _) => e
    case PerformanceRecord(e, _) => e
  }

  /** What follows the first id: nothing, or `_gw_` and the gameweek. */
  function Tail(r: Record): string
    requires !r.TeamRecord? && !r.GameweekRecord? && !r.LeagueRecord?
  {
    match r
    case PlayerRecord(_) => ""
    case PlayerRoundRecord(_, round) => "_gw_" + IntToString(round)
    case ManagerRecord(_) => ""
    case ManagerRoundRecord(_, g) => "_gw_" + IntToString(g)
    case PerformanceRecord(_, g) => "_gw_" + IntToString(g)
  }

  /** The prefix of the kinds that can carry a first id. */
  function Prefix(r: Record): string
    requires !r.TeamRecord? && !r.GameweekRecord? && !r.LeagueRecord?
  {
    match r
    case PlayerRecord(_) => "player_"
    case PlayerRoundRecord(_, _) => "player_"
    case ManagerRecord(_) => "manager_"
    case ManagerRoundRecord(_, _) => "manager_"
    case PerformanceRecord(_, _) => "perf_"
  }

  lemma KeyShape(r: Record)
    requires !r.TeamRecord? && !r.GameweekRecord? && !r.LeagueRecord?
    ensures KeyOf(r) == Prefix(r) + IntToString(FirstId(r)) + Tail(r)
  {
    if r.PlayerRoundRecord? || r.ManagerRoundRecord? || r.PerformanceRecord? {
      var second := if r.PlayerRoundRecord? then r.round else r.gameweek;
      ConcatAssoc(Prefix(r) + IntToString(FirstId(r)), "_gw_", IntToString(second));
    } else {
      assert Prefix(r) + IntToString(FirstId(r)) + "" == Prefix(r) + IntToString(FirstId(r));
    }
  }

  lemma PrefixIdsInjective(p: string, a: Record, b: Record)
    requires !a.TeamRecord? && !a.GameweekRecord? && !a.LeagueRecord?
    requires !b.TeamRecord? && !b.GameweekRecord? && !b.LeagueRecord?
    requires Prefix(a) == p && Prefix(b) == p
    requires KeyOf(a) == KeyOf(b)
    ensures a == b
  {
    KeyShape(a);
    KeyShape(b);
    PrefixIntThenSeparator(p, FirstId(a), Tail(a), FirstId(b), Tail(b));
    if |Tail(a)| > 0 && |Tail(b)| > 0 {
      var ga := if a.PlayerRoundRecord? then a.round else a.gameweek;
      var gb := if b.PlayerRoundRecord? then b.round else b.gameweek;
      CommonPrefixTail("_gw_", IntToString(ga), IntToString(gb));
      IntToStringInjective(ga, gb);
    }
  }
}
