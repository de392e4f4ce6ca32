/**
 * The endpoints of the Fantasy Premier League API as the client (src/fpl_client.py)
 * spells them, and the request URL built from an endpoint. The two cloud functions
 * write the same URLs out in full; they are built here from the same parts.
 */
module Endpoints {
  import opened Wrappers
  import opened Strings

  const BaseUrl: string := "https://fantasy.premierleague.com/api"

  /** `f"{self.BASE_URL}/{endpoint}"`. */
  function Url(endpoint: string): (url: string)
    ensures StartsWith(url, BaseUrl + "/")
    ensures url[|BaseUrl| + 1..] == endpoint
  {
    BaseUrl + "/" + endpoint
  }

  /** Different endpoints give different URLs. */
  lemma UrlInjective(a: string, b: string)
    requires Url(a) == Url(b)
    ensures a == b
  {
    assert a == Url(a)[|BaseUrl| + 1..];
  }

  const BootstrapStaticPath: string := "bootstrap-static/"

  function ElementSummaryPath(playerId: int): string {
    "element-summary/" + IntToString(playerId) + "/"
  }

  /** The standings endpoint of a league given by its id as text. */
  function LeaguePath(leagueId: string): string {
    "leagues-classic/" + leagueId + "/standings/"
  }

  /** `get_league_standings`: the page is appended as a query only beyond the first page. */
  function LeagueStandingsPath(leagueId: int, page: int): string {
    var endpoint := LeaguePath(IntToString(leagueId));
    if page > 1 then endpoint + "?page_standings=" + IntToString(page) else endpoint
  }

  function EntryPath(entryId: int): string {
    "entry/" + IntToString(entryId) + "/"
  }

  function EntryHistoryPath(entryId: int): string {
    "entry/" + IntToString(entryId) + "/history/"
  }

  function EntryPicksPath(entryId: int, gameweek: int): string {
    "entry/" + IntToString(entryId) + "/event/" + IntToString(gameweek) + "/picks/"
  }

  /** Python truthiness of an optional int: None and 0 are false. */
  predicate Truthy(gameweek: Option<int>) {
    gameweek.Some? && gameweek.value != 0
  }

  /** `get_fixtures`: the gameweek filter is appended only when the gameweek is truthy. */
  function FixturesPath(gameweek: Option<int>): string {
    if Truthy(gameweek) then "fixtures/?event=" + IntToString(gameweek.value) else "fixtures/"
  }

  /** The requests the client can make, one constructor per public getter. */
  datatype Resource =
    | BootstrapStatic
    | PlayerSummary(playerId: int)
    | Standings(leagueId: int, page: int)
    | EntryDetails(entryId: int)
    | History(entryId: int)
    | EntryPicks(entryId: int, gameweek: int)
    | Fixtures(filter: Option<int>)

  function Path(r: Resource): string {
    match r
    case BootstrapStatic => BootstrapStaticPath
    case PlayerSummary(p) => ElementSummaryPath(p)
    case Standings(l, page) => LeagueStandingsPath(l, page)
    case EntryDetails(e) => EntryPath(e)
    case History(e) => EntryHistoryPath(e)
    case EntryPicks(e, gw) => EntryPicksPath(e, gw)
    case Fixtures(gw) => FixturesPath(gw)
  }

  /**
   * The request with the arguments the client ignores normalised away: every page up
   * to 1 is the first page, and a falsy gameweek is no filter.
   */
  function Canonical(r: Resource): Resource {
    match r
    case Standings(l, page) => Standings(l, if page > 1 then page else 1)
    case Fixtures(gw) => Fixtures(if Truthy(gw) then gw else None)
    case _ => r
  }

  /**
   * Two requests go to the same endpoint exactly when they agree up to the
   * normalisation above: no two different requests share an endpoint.
   */
  lemma PathInjective(a: Resource, b: Resource)
    ensures Path(a) == Path(b) <==> Canonical(a) == Canonical(b)
  {
    if Path(a) == Path(b) {
      SamePathSameRequest(a, b);
    }
  }

  lemma SamePathSameRequest(a: Resource, b: Resource)
    requires Path(a) == Path(b)
    ensures Canonical(a) == Canonical(b)
  {
    PathHead(a);
    PathHead(b);
    assert Head(a) == Path(a)[..2] == Path(b)[..2] == Head(b);
    match a
    case BootstrapStatic =>
    case PlayerSummary(x) =>
      PrefixIntThenSeparator("element-summary/", x, "/", b.playerId, "/");
    case Standings(x, p) =>
      StandingsPathInjective(x, p, b.leagueId, b.page);
    case EntryDetails(_) =>
      EntryPathsInjective(a, b);
    case History(_) =>
      EntryPathsInjective(a, b);
    case EntryPicks(_, _) =>
      EntryPathsInjective(a, b);
    case Fixtures(g) =>
      if Truthy(g) && Truthy(b.filter) {
        PrefixIntThenSeparator("fixtures/?event=", g.value, "", b.filter.value, "");
      }
  }

  /** What `get_league_standings` appends after `/standings/`. */
  function PageQuery(page: int): string {
    if page > 1 then "?page_standings=" + IntToString(page) else ""
  }

  lemma StandingsPathShape(x: int, page: int)
    ensures LeagueStandingsPath(x, page) == "leagues-classic/" + IntToString(x) + ("/standings/" + PageQuery(page))
  {
    var a := "leagues-classic/" + IntToString(x);
    ConcatAssoc(a, "/standings/", PageQuery(page));
    if page > 1 {
      ConcatAssoc(a + "/standings/", "?page_standings=", IntToString(page));
    } else {
      assert a + "/standings/" + "" == a + "/standings/";
    }
  }

  lemma StandingsPathInjective(x: int, p: int, y: int, q: int)
    requires LeagueStandingsPath(x, p) == LeagueStandingsPath(y, q)
    ensures x == y && (if p > 1 then p else 1) == (if q > 1 then q else 1)
  {
    StandingsPathShape(x, p);
    StandingsPathShape(y, q);
    var tp, tq := PageQuery(p), PageQuery(q);
    PrefixIntThenSeparator("leagues-classic/", x, "/standings/" + tp, y, "/standings/" + tq);
    CommonPrefixTail("/standings/", tp, tq);
    if p > 1 && q > 1 {
      PrefixIntThenSeparator("?page_standings=", p, "", q, "");
    }
  }

  /** The three `entry/{id}/...` endpoints: the id is read back, then the tails differ. */
  lemma EntryPathsInjective(a: Resource, b: Resource)
    requires a.EntryDetails? || a.History? || a.EntryPicks?
    requires b.EntryDetails? || b.History? || b.EntryPicks?
    requires Path(a) == Path(b)
    ensures a == b
  {
    var x, tx := a.entryId, EntryTail(a);
    var y, ty := b.entryId, EntryTail(b);
    EntryPathShape(a);
    EntryPathShape(b);
    PrefixIntThenSeparator("entry/", x, tx, y, ty);
    if a.EntryPicks? && b.EntryPicks? {
      PrefixIntThenSeparator("/event/", a.gameweek, "/picks/", b.gameweek, "/picks/");
    }
  }

  /** What follows the entry id in an `entry/{id}/...` endpoint. */
  function EntryTail(r: Resource): string
    requires r.EntryDetails? || r.History? || r.EntryPicks?
  {
    match r
    case EntryDetails(_) => "/"
    case History(_) => "/history/"
    case EntryPicks(_, g) => "/event/" + IntToString(g) + "/picks/"
  }

  lemma EntryPathShape(r: Resource)
    requires r.EntryDetails? || r.History? || r.EntryPicks?
    ensures Path(r) == "entry/" + IntToString(r.entryId) + EntryTail(r)
  {
    if r.EntryPicks? {
      var a := "entry/" + IntToString(r.entryId);
      ConcatAssoc(a + "/event/", IntToString(r.gameweek), "/picks/");
      ConcatAssoc(a, "/event/", IntToString(r.gameweek) + "/picks/");
      ConcatAssoc("/event/", IntToString(r.gameweek), "/picks/");
    }
  }

  /** The first two characters of each kind of endpoint. */
  function Head(r: Resource): string {
    match r
    case BootstrapStatic => "bo"
    case PlayerSummary(_) => "el"
    case Standings(_, _) => "le"
    case EntryDetails(_) => "en"
    case History(_) => "en"
    case EntryPicks(_, _) => "en"
    case Fixtures(_) => "fi"
  }

  lemma PathHead(r: Resource)
    ensures |Path(r)| >= 2 && Path(r)[..2] == Head(r)
  {
  }

}
