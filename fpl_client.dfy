/**
 * The API client (src/fpl_client.py): one GET per getter, each built from an endpoint,
 * checked for an HTTP error status, followed by the rate-limit delay and decoded.
 * The network is a parameter: `server(url)` is the reply to a GET of `url`, or None
 * when the connection fails. The delay is recorded in a trace instead of slept.
 */
module FplClient {
  import opened Wrappers
  import opened Strings
  import opened Endpoints
  import opened FplApi

  /** The delay the client waits after each successful request unless told otherwise. */
  const DefaultRateLimitDelay: real := 0.5

  /** The user agent every request of the session carries. */
  const UserAgent: string := "Mozilla/5.0 (Macintosh; Intel Mac OS X 10_15_7)"

  /** One HTTP reply: its status and its body, None when the body is not JSON. */
  datatype Reply<T> = Reply(status: int, body: Option<T>)

  /** Why a request raised. */
  datatype ClientError =
    | ConnectionFailed(url: string)
    | HttpError(status: int, url: string)
    | InvalidJson(url: string)

  /** What the client does to the outside world, in order. */
  datatype Step = Request(url: string) | Sleep(seconds: real)

  /** `raise_for_status` raises for client and server errors. */
  predicate IsErrorStatus(status: int) {
    400 <= status < 600
  }

  /** The value `_get` returns, or the error it raises, for a given reply. */
  function Outcome<T>(url: string, reply: Option<Reply<T>>): (r: Result<T, ClientError>)
    ensures r.Success? <==> reply.Some? && !IsErrorStatus(reply.value.status) && reply.value.body.Some?
    ensures r.Success? ==> r.value == reply.value.body.value
    ensures r.Failure? && r.error.HttpError? ==> reply.Some? && r.error.status == reply.value.status
  {
    match reply
    case None => Failure(ConnectionFailed(url))
    case Some(Reply(status, body)) =>
      if IsErrorStatus(status) then Failure(HttpError(status, url))
      else if body.None? then Failure(InvalidJson(url))
      else Success(body.value)
  }

  /** The steps `_get` takes for a given reply: it waits only once the status has passed. */
  function Steps<T>(url: string, reply: Option<Reply<T>>, delay: real): (t: seq<Step>)
    ensures 1 <= |t| <= 2 && t[0] == Request(url)
    ensures |t| == 2 <==> reply.Some? && !IsErrorStatus(reply.value.status)
    ensures |t| == 2 ==> t[1] == Sleep(delay)
  {
    if reply.Some? && !IsErrorStatus(reply.value.status) then [Request(url), Sleep(delay)]
    else [Request(url)]
  }

  /** No two requests in a trace follow each other without a delay between them. */
  predicate Paced(t: seq<Step>) {
    forall i :: 0 < i < |t| && t[i].Request? ==> t[i - 1].Sleep?
  }

  /** A trace that waits after its last request. */
  predicate EndsWaiting(t: seq<Step>) {
    |t| > 0 && t[|t| - 1].Sleep?
  }

  /**
   * Every request that returns a value has waited the delay, so a caller that only
   * issues its next request after a value came back never hits the API twice in a row.
   */
  lemma SuccessWaits<T>(url: string, reply: Option<Reply<T>>, delay: real)
    requires Outcome(url, reply).Success?
    ensures EndsWaiting(Steps(url, reply, delay)) && Steps(url, reply, delay)[1] == Sleep(delay)
  {
  }

  /** An error status raises before the delay: the request is the only step. */
  lemma ErrorStatusDoesNotWait<T>(url: string, status: int, body: Option<T>, delay: real)
    requires IsErrorStatus(status)
    ensures Steps(url, Some(Reply(status, body)), delay) == [Request(url)]
    ensures Outcome(url, Some(Reply(status, body))) == Failure(HttpError(status, url))
  {
  }

  /** A body that is not JSON fails after the delay has been waited. */
  lemma InvalidJsonAfterWait<T>(url: string, status: int, delay: real)
    requires !IsErrorStatus(status)
    ensures Steps<T>(url, Some(Reply(status, None)), delay) == [Request(url), Sleep(delay)]
    ensures Outcome<T>(url, Some(Reply(status, None))) == Failure(InvalidJson(url))
  {
  }

  /** Appending the steps of one more request keeps a paced trace paced once it waited. */
  lemma {:induction false} PacedAppend(t: seq<Step>, u: seq<Step>)
    requires Paced(t) && Paced(u)
    requires |t| == 0 || EndsWaiting(t)
    ensures Paced(t + u)
  {
    forall i | 0 < i < |t + u| && (t + u)[i].Request?
      ensures (t + u)[i - 1].Sleep?
    {
      if i < |t| {
        assert (t + u)[i] == t[i] && (t + u)[i - 1] == t[i - 1];
      } else if i == |t| {
        assert (t + u)[i - 1] == t[|t| - 1];
      } else {
        assert (t + u)[i] == u[i - |t|] && (t + u)[i - 1] == u[i - 1 - |t|];
      }
    }
  }

  /** The steps of one request are paced. */
  lemma StepsPaced<T>(url: string, reply: Option<Reply<T>>, delay: real)
    ensures Paced(Steps(url, reply, delay))
  {
  }

  class Client {
    /** Seconds to wait after each successful request. */
    const rateLimitDelay: real
    /** The `User-Agent` header of the session. */
    const userAgent: string

    constructor(rateLimitDelay: real)
      ensures this.rateLimitDelay == rateLimitDelay
      ensures userAgent == UserAgent
    {
      this.rateLimitDelay := rateLimitDelay;
      this.userAgent := UserAgent;
    }

    /** `FPLClient()` with the default delay. */
    constructor Default()
      ensures rateLimitDelay == DefaultRateLimitDelay
      ensures userAgent == UserAgent
    {
      this.rateLimitDelay := DefaultRateLimitDelay;
      this.userAgent := UserAgent;
    }

    /**
     * `_get`: request the endpoint under the base URL, raise on an error status,
     * wait the delay, then decode the body.
     */
    method Get<T>(endpoint: string, server: string -> Option<Reply<T>>)
      returns (r: Result<T, ClientError>, trace: seq<Step>)
      ensures r == Outcome(Url(endpoint), server(Url(endpoint)))
      ensures trace == Steps(Url(endpoint), server(Url(endpoint)), rateLimitDelay)
    {
      var url := Url(endpoint);
      trace := [Request(url)];
      var response := server(url);
      if response.None? {
        return Failure(ConnectionFailed(url)), trace;
      }
      if IsErrorStatus(response.value.status) {
        return Failure(HttpError(response.value.status, url)), trace;
      }
      trace := trace + [Sleep(rateLimitDelay)];
      var json := response.value.body;
      if json.None? {
        return Failure(InvalidJson(url)), trace;
      }
      r := Success(json.value);
    }

    /** `get_bootstrap_static`. */
    method GetBootstrapStatic(server: string -> Option<Reply<Bootstrap>>)
      returns (r: Result<Bootstrap, ClientError>, trace: seq<Step>)
      ensures Url(BootstrapStaticPath) == BaseUrl + "/bootstrap-static/"
      ensures r == Outcome(Url(BootstrapStaticPath), server(Url(BootstrapStaticPath)))
      ensures trace == Steps(Url(BootstrapStaticPath), server(Url(BootstrapStaticPath)), rateLimitDelay)
    {
      r, trace := Get(Path(BootstrapStatic), server);
    }

    /** `get_player_summary`. */
    method GetPlayerSummary(playerId: int, server: string -> Option<Reply<PlayerSummary>>)
      returns (r: Result<PlayerSummary, ClientError>, trace: seq<Step>)
      ensures r == Outcome(Url(ElementSummaryPath(playerId)), server(Url(ElementSummaryPath(playerId))))
      ensures trace == Steps(Url(ElementSummaryPath(playerId)), server(Url(ElementSummaryPath(playerId))), rateLimitDelay)
    {
      r, trace := Get(Path(Resource.PlayerSummary(playerId)), server);
    }

    /** `get_league_standings`: the page query is added only beyond the first page. */
    method GetLeagueStandings(leagueId: int, page: int, server: string -> Option<Reply<LeagueStandings>>)
      returns (r: Result<LeagueStandings, ClientError>, trace: seq<Step>)
      ensures trace == Steps(Url(LeagueStandingsPath(leagueId, page)), server(Url(LeagueStandingsPath(leagueId, page))), rateLimitDelay)
      ensures r == Outcome(trace[0].url, server(trace[0].url))
      ensures page <= 1 ==> trace[0].url == Url(LeaguePath(IntToString(leagueId)))
      ensures page > 1 ==> trace[0].url == Url(LeaguePath(IntToString(leagueId))) + "?page_standings=" + IntToString(page)
    {
      r, trace := Get(Path(Standings(leagueId, page)), server);
      if page > 1 {
        var base := LeaguePath(IntToString(leagueId));
        ConcatAssoc(BaseUrl + "/", base, "?page_standings=");
        ConcatAssoc(BaseUrl + "/", base + "?page_standings=", IntToString(page));
        ConcatAssoc(BaseUrl + "/" + base, "?page_standings=", IntToString(page));
      }
    }

    /** `get_entry`. */
    method GetEntry(entryId: int, server: string -> Option<Reply<Entry>>)
      returns (r: Result<Entry, ClientError>, trace: seq<Step>)
      ensures r == Outcome(Url(EntryPath(entryId)), server(Url(EntryPath(entryId))))
      ensures trace == Steps(Url(EntryPath(entryId)), server(Url(EntryPath(entryId))), rateLimitDelay)
    {
      r, trace := Get(Path(EntryDetails(entryId)), server);
    }

    /** `get_entry_history`. */
    method GetEntryHistory(entryId: int, server: string -> Option<Reply<EntryHistory>>)
      returns (r: Result<EntryHistory, ClientError>, trace: seq<Step>)
      ensures r == Outcome(Url(EntryHistoryPath(entryId)), server(Url(EntryHistoryPath(entryId))))
      ensures trace == Steps(Url(EntryHistoryPath(entryId)), server(Url(EntryHistoryPath(entryId))), rateLimitDelay)
    {
      r, trace := Get(Path(History(entryId)), server);
    }

    /** `get_entry_picks`. */
    method GetEntryPicks(entryId: int, gameweek: int, server: string -> Option<Reply<Picks>>)
      returns (r: Result<Picks, ClientError>, trace: seq<Step>)
      ensures r == Outcome(Url(EntryPicksPath(entryId, gameweek)), server(Url(EntryPicksPath(entryId, gameweek))))
      ensures trace == Steps(Url(EntryPicksPath(entryId, gameweek)), server(Url(EntryPicksPath(entryId, gameweek))), rateLimitDelay)
    {
      r, trace := Get(Path(EntryPicks(entryId, gameweek)), server);
    }

    /** `get_fixtures`: the event filter is added only for a truthy gameweek. */
    method GetFixtures<F>(gameweek: Option<int>, server: string -> Option<Reply<seq<F>>>)
      returns (r: Result<seq<F>, ClientError>, trace: seq<Step>)
      ensures trace == Steps(Url(FixturesPath(gameweek)), server(Url(FixturesPath(gameweek))), rateLimitDelay)
      ensures r == Outcome(trace[0].url, server(trace[0].url))
      ensures Truthy(gameweek) ==> trace[0].url == Url("fixtures/?event=" + IntToString(gameweek.value))
      ensures !Truthy(gameweek) ==> trace[0].url == Url("fixtures/")
    {
      r, trace := Get(Path(Fixtures(gameweek)), server);
    }

    /**
     * `get_current_gameweek`: the id of the first event flagged current, None when no
     * event is. A failed bootstrap request raises instead.
     */
    method GetCurrentGameweek(server: string -> Option<Reply<Bootstrap>>)
      returns (r: Result<Option<int>, ClientError>, trace: seq<Step>)
      ensures trace == Steps(Url(BootstrapStaticPath), server(Url(BootstrapStaticPath)), rateLimitDelay)
      ensures r.Failure? <==> Outcome(Url(BootstrapStaticPath), server(Url(BootstrapStaticPath))).Failure?
      ensures r.Success? ==> var events := Outcome(Url(BootstrapStaticPath), server(Url(BootstrapStaticPath))).value.events;
        match CurrentEvent(events)
        case None => r.value == None
        case Some(e) => r.value == Some(e.id)
    {
      var data;
      data, trace := GetBootstrapStatic(server);
      if data.Failure? {
        return Failure(data.error), trace;
      }
      var events := data.value.events;
      var i := 0;
      while i < |events|
        invariant 0 <= i <= |events|
        invariant FirstCurrentFrom(events, 0) == FirstCurrentFrom(events, i)
      {
        if events[i].isCurrent {
          return Success(Some(events[i].id)), trace;
        }
        i := i + 1;
      }
      r := Success(None);
    }
  }
}
