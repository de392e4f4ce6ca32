/**
 * The dashboard's reading side of the key scheme (streamlit_app.py): selecting a
 * manager's performance nodes by external-id prefix, recovering gameweek numbers from
 * external ids, and the transfer-success arithmetic of the transfer tab.
 *
 * The node listings are inputs: a node whose properties are absent or empty has
 * `props == None`; a missing property is `None` and read with the dashboard's default.
 */
module Dashboard {
  import opened Wrappers
  import opened Strings
  import opened Keys

  // ---------------------------------------------------------------------------
  // Performance nodes

  datatype PerfProps = PerfProps(
    points: Option<int>, totalPoints: Option<int>, overallRank: Option<int>,
    transfers: Option<int>, transferCost: Option<int>)

  datatype PerfNode = PerfNode(externalId: string, props: Option<PerfProps>)

  datatype PerfRow = PerfRow(
    gameweek: int, points: int, totalPoints: int, rank: int, transfers: int, transferCost: int)

  /**
   * `f"perf_{manager_external_id.split('_')[1]}_"`; None where the manager id has no
   * `_`, for which the indexing raises and the dashboard shows no performance data.
   */
  function PerfPrefix(managerExternalId: string): Option<string> {
    var parts := Split(managerExternalId, "_");
    if |parts| < 2 then None else Some("perf_" + parts[1] + "_")
  }

  /** `int(s) if s.isdigit() else 0`. */
  function DigitsOrZero(s: string): (n: nat)
    ensures !IsDigits(s) ==> n == 0
  {
    if IsDigits(s) then ParseDigits(s) else 0
  }

  /** The gameweek parse as the dashboard writes it: the piece after the last `_gw`. */
  function PerfGameweekAsWritten(externalId: string): nat {
    DigitsOrZero(Last(Split(externalId, "_gw")))
  }

  /** The gameweek parse the key scheme calls for: the piece after the last `_gw_`. */
  function PerfGameweek(externalId: string): nat {
    DigitsOrZero(Last(Split(externalId, "_gw_")))
  }

  /**
   * Which gameweek parse builds the rows: the dashboard's own (`split("_gw")[-1]`), or
   * the one its performance ids call for (`split("_gw_")[-1]`).
   */
  datatype GameweekParse = AsWritten | Corrected {
    function Read(externalId: string): nat {
      match this
      case AsWritten => PerfGameweekAsWritten(externalId)
      case Corrected => PerfGameweek(externalId)
    }
  }

  /** One performance row, its gameweek read from the id by `parse`. */
  function PerfRowOf(parse: GameweekParse, externalId: string, p: PerfProps): PerfRow {
    PerfRow(parse.Read(externalId), p.points.GetOr(0), p.totalPoints.GetOr(0),
      p.overallRank.GetOr(0), p.transfers.GetOr(0), p.transferCost.GetOr(0))
  }

  /** The node is selected: its id starts with the prefix and it carries properties. */
  predicate Selects(prefix: string, n: PerfNode) {
    StartsWith(n.externalId, prefix) && n.props.Some?
  }

  /** The rows of the selected nodes, in listing order. */
  function Matching(nodes: seq<PerfNode>, prefix: string, parse: GameweekParse): seq<PerfRow> {
    if |nodes| == 0 then []
    else
      var n := nodes[|nodes| - 1];
      Matching(nodes[..|nodes| - 1], prefix, parse)
        + if Selects(prefix, n) then [PerfRowOf(parse, n.externalId, n.props.value)] else []
  }

  /** The id is some manager's performance id `perf_{e}_gw_{g}`. */
  ghost predicate PerformanceId(externalId: string) {
    exists e: int, g: int :: externalId == PerformanceKey(e, g)
  }

  /** Over a listing of performance nodes, the parse as written gives every row gameweek 0. */
  lemma {:induction false} MatchingAsWrittenZero(nodes: seq<PerfNode>, prefix: string)
    requires forall k :: 0 <= k < |nodes| ==> PerformanceId(nodes[k].externalId)
    ensures forall r :: r in Matching(nodes, prefix, AsWritten) ==> r.gameweek == 0
    decreases |nodes|
  {
    if |nodes| > 0 {
      var init, n := nodes[..|nodes| - 1], nodes[|nodes| - 1];
      forall k | 0 <= k < |init| ensures PerformanceId(init[k].externalId) {
        assert init[k] == nodes[k];
      }
      MatchingAsWrittenZero(init, prefix);
      if Selects(prefix, n) {
        var e, g :| n.externalId == PerformanceKey(e, g);
        PerfGameweekAsWrittenIsZero(e, g);
      }
    }
  }

  predicate SortedByGameweek(rows: seq<PerfRow>) {
    forall i, j :: 0 <= i < j < |rows| ==> rows[i].gameweek <= rows[j].gameweek
  }

  /** Places a row before the first row of a later gameweek. */
  function InsertByGameweek(r: PerfRow, rows: seq<PerfRow>): seq<PerfRow> {
    if |rows| == 0 then [r]
    else if r.gameweek <= rows[0].gameweek then [r] + rows
    else [rows[0]] + InsertByGameweek(r, rows[1..])
  }

  /** `df.sort_values("gameweek")`, up to the order of rows of equal gameweek. */
  function SortByGameweek(rows: seq<PerfRow>): seq<PerfRow> {
    if |rows| == 0 then [] else InsertByGameweek(rows[0], SortByGameweek(rows[1..]))
  }

  /**
   * `fetch_performance_data`: the selected rows, sorted by gameweek. The sort is not
   * stable, so only the multiset of rows and their gameweek order are promised. The
   * dashboard as written is `parse == AsWritten`, which over performance ids gives every
   * row gameweek 0; `Corrected` gives each row the gameweek of its id.
   */
  method FetchPerformanceData(nodes: seq<PerfNode>, managerExternalId: string, parse: GameweekParse)
    returns (rows: seq<PerfRow>)
    ensures PerfPrefix(managerExternalId).None? ==> rows == []
    ensures PerfPrefix(managerExternalId).Some? ==>
      && SortedByGameweek(rows)
      && multiset(rows) == multiset(Matching(nodes, PerfPrefix(managerExternalId).value, parse))
    ensures parse == AsWritten && (forall k :: 0 <= k < |nodes| ==> PerformanceId(nodes[k].externalId)) ==>
      forall k :: 0 <= k < |rows| ==> rows[k].gameweek == 0
  {
    var prefix := PerfPrefix(managerExternalId);
    if prefix.None? {
      return [];
    }
    var performance := [];
    var i := 0;
    while i < |nodes|
      invariant 0 <= i <= |nodes|
      invariant performance == Matching(nodes[..i], prefix.value, parse)
    {
      var n := nodes[i];
      assert nodes[..i + 1][..i] == nodes[..i];
      if StartsWith(n.externalId, prefix.value) && n.props.Some? {
        performance := performance + [PerfRowOf(parse, n.externalId, n.props.value)];
      }
      i := i + 1;
    }
    assert nodes[..i] == nodes;
    rows := performance;
    if |performance| > 0 {
      SortCorrect(performance);
      rows := SortByGameweek(performance);
    }
    if parse == AsWritten && forall k :: 0 <= k < |nodes| ==> PerformanceId(nodes[k].externalId) {
      MatchingAsWrittenZero(nodes, prefix.value);
      forall k | 0 <= k < |rows| ensures rows[k].gameweek == 0 {
        assert rows[k] in multiset(rows);
      }
    }
  }

  // ---------------------------------------------------------------------------
  // Sorting

  lemma {:induction false} InsertCorrect(r: PerfRow, rows: seq<PerfRow>)
    requires SortedByGameweek(rows)
    ensures SortedByGameweek(InsertByGameweek(r, rows))
    ensures multiset(InsertByGameweek(r, rows)) == multiset(rows) + multiset{r}
    decreases |rows|
  {
    if |rows| > 0 && r.gameweek > rows[0].gameweek {
      var tail := rows[1..];
      assert rows == [rows[0]] + tail;
      SortedTail(rows);
      InsertCorrect(r, tail);
      var inserted := InsertByGameweek(r, tail);
      BoundedBelow(rows[0].gameweek, r, rows, inserted);
      SortedCons(rows[0], inserted);
    }
  }

  lemma SortedTail(rows: seq<PerfRow>)
    requires |rows| > 0 && SortedByGameweek(rows)
    ensures SortedByGameweek(rows[1..])
  {
    var tail := rows[1..];
    forall i, j | 0 <= i < j < |tail| ensures tail[i].gameweek <= tail[j].gameweek {
      assert tail[i] == rows[i + 1] && tail[j] == rows[j + 1];
    }
  }

  /** Everything in the tail, and the inserted row, is at or above the head's gameweek. */
  lemma BoundedBelow(low: int, r: PerfRow, rows: seq<PerfRow>, inserted: seq<PerfRow>)
    requires |rows| > 0 && SortedByGameweek(rows) && rows[0].gameweek == low && r.gameweek >= low
    requires multiset(inserted) == multiset(rows[1..]) + multiset{r}
    ensures forall k :: 0 <= k < |inserted| ==> low <= inserted[k].gameweek
  {
    forall k | 0 <= k < |inserted| ensures low <= inserted[k].gameweek {
      var x := inserted[k];
      assert x in multiset(inserted);
      if x != r {
        assert x in multiset(rows[1..]);
        var m :| 0 <= m < |rows[1..]| && rows[1..][m] == x;
        assert rows[m + 1] == x;
      }
    }
  }

  lemma SortedCons(head: PerfRow, rows: seq<PerfRow>)
    requires SortedByGameweek(rows)
    requires forall k :: 0 <= k < |rows| ==> head.gameweek <= rows[k].gameweek
    ensures SortedByGameweek([head] + rows)
  {
    var result := [head] + rows;
    forall i, j | 0 <= i < j < |result| ensures result[i].gameweek <= result[j].gameweek {
      assert result[j] == rows[j - 1];
      if i > 0 {
        assert result[i] == rows[i - 1];
      }
    }
  }

  /** The sort orders by gameweek and is a permutation. */
  lemma {:induction false} SortCorrect(rows: seq<PerfRow>)
    ensures SortedByGameweek(SortByGameweek(rows))
    ensures multiset(SortByGameweek(rows)) == multiset(rows)
    decreases |rows|
  {
    if |rows| > 0 {
      SortCorrect(rows[1..]);
      InsertCorrect(rows[0], SortByGameweek(rows[1..]));
      assert rows == [rows[0]] + rows[1..];
    }
  }

  // ---------------------------------------------------------------------------
  // Id parsing against the key scheme

  /** Splitting `word_<i>` on `_`, for a word without `_`, gives the word and the digits. */
  lemma SplitWordInt(word: string, i: int)
    requires forall k :: 0 <= k < |word| ==> word[k] != '_'
    ensures Split(word + "_" + IntToString(i), "_") == [word, IntToString(i)]
  {
    var digits := IntToString(i);
    assert forall k :: 0 <= k < |digits| ==> digits[k] != '_' by {
      forall k | 0 <= k < |digits| ensures digits[k] != '_' {
        assert IsIntChar(digits[k]);
      }
    }
    SplitWordTail(word, digits);
  }

  /** Splitting `word_tail` on `_`, when neither part holds a `_`, gives the two parts. */
  lemma SplitWordTail(word: string, tail: string)
    requires forall k :: 0 <= k < |word| ==> word[k] != '_'
    requires forall k :: 0 <= k < |tail| ==> tail[k] != '_'
    ensures Split(word + "_" + tail, "_") == [word, tail]
  {
    var s := word + "_" + tail;
    FirstUnderscore(word, tail, s);
    SplitAt(s, "_", |word|);
    assert s[..|word|] == word;
    assert s[|word| + 1..] == tail;
    NoOccurrenceWithoutHead(tail, "_", 0);
    SplitNone(tail, "_");
  }

  lemma FirstUnderscore(word: string, rest: string, s: string)
    requires forall k :: 0 <= k < |word| ==> word[k] != '_'
    requires s == word + "_" + rest
    ensures OccursAt(s, "_", |word|)
    ensures forall j :: 0 <= j < |word| ==> !OccursAt(s, "_", j)
  {
    assert s[|word|..|word| + 1] == "_";
    forall j | 0 <= j < |word| ensures !OccursAt(s, "_", j) {
      assert s[j..j + 1][0] == s[j] == word[j];
    }
  }

  /** The last piece of a split whose first separator is the only one. */
  lemma LastOfSplit(s: string, sep: string, k: nat, rest: string)
    requires |sep| > 0 && OccursAt(s, sep, k)
    requires forall j :: 0 <= j < k ==> !OccursAt(s, sep, j)
    requires rest == s[k + |sep|..]
    requires forall j :: 0 <= j <= |rest| ==> !OccursAt(rest, sep, j)
    ensures Last(Split(s, sep)) == rest
  {
    SplitAt(s, sep, k);
    SplitNone(rest, sep);
  }

  /** The manager id `manager_<e>` yields the prefix `perf_<e>_`. */
  lemma ManagerPrefix(entryId: int)
    ensures PerfPrefix(ManagerKey(entryId)) == Some("perf_" + IntToString(entryId) + "_")
  {
    assert ManagerKey(entryId) == "manager" + "_" + IntToString(entryId);
    SplitWordInt("manager", entryId);
  }

  /**
   * A manager's prefix selects exactly that manager's performance ids: the trailing `_`
   * keeps `manager_12` from picking up `perf_123_gw_…`.
   */
  lemma PrefixSelectsManager(manager: int, entryId: int, gameweek: int)
    ensures var prefix := "perf_" + IntToString(manager) + "_";
      && PerfPrefix(ManagerKey(manager)) == Some(prefix)
      && (StartsWith(PerformanceKey(entryId, gameweek), prefix) <==> manager == entryId)
  {
    ManagerPrefix(manager);
    var prefix := "perf_" + IntToString(manager) + "_";
    if StartsWith(PerformanceKey(entryId, gameweek), prefix) {
      PrefixOnlyOwn(manager, entryId, gameweek);
    }
    if manager == entryId {
      PrefixOfOwn(entryId, gameweek);
    }
  }

  /** Only the manager's own performance ids start with its prefix. */
  lemma PrefixOnlyOwn(manager: int, entryId: int, gameweek: int)
    requires StartsWith(PerformanceKey(entryId, gameweek), "perf_" + IntToString(manager) + "_")
    ensures manager == entryId
  {
    var m, e, g := IntToString(manager), IntToString(entryId), IntToString(gameweek);
    var tail := "_gw_" + g;
    ConcatAssoc("perf_" + e, "_gw_", g);
    var rest := PrefixRest("perf_", m, e, tail);
    assert ("_" + rest)[0] == '_';
    PrefixIntThenSeparator("perf_", manager, "_" + rest, entryId, tail);
  }

  /** A text `p + e + tail` that starts with `p + m + "_"` is `p + m` followed by `_` and the rest. */
  lemma PrefixRest(p: string, m: string, e: string, tail: string) returns (rest: string)
    requires StartsWith(p + e + tail, p + m + "_")
    ensures p + m + ("_" + rest) == p + e + tail
  {
    var key := p + e + tail;
    rest := key[|p + m + "_"|..];
    assert key == (p + m + "_") + rest;
  }

  /** Every performance id of a manager starts with its prefix. */
  lemma PrefixOfOwn(entryId: int, gameweek: int)
    ensures StartsWith(PerformanceKey(entryId, gameweek), "perf_" + IntToString(entryId) + "_")
  {
    var prefix := "perf_" + IntToString(entryId) + "_";
    assert PerformanceKey(entryId, gameweek) == prefix + ("gw_" + IntToString(gameweek));
  }

  /** The first `_gw` of a performance id is the one after the entry id. */
  lemma PerfKeyShape(entryId: int, gameweek: int, sep: string)
    requires sep == "_gw" || sep == "_gw_"
    ensures
      var key := PerformanceKey(entryId, gameweek);
      var k := 5 + |IntToString(entryId)|;
      && OccursAt(key, sep, k)
      && (forall j :: 0 <= j < k ==> !OccursAt(key, sep, j))
      && key[k + |sep|..] == (if sep == "_gw" then "_" else "") + IntToString(gameweek)
  {
    PerfTextShape(IntToString(entryId), IntToString(gameweek), sep);
  }

  /** The same for any entry text of int characters. */
  lemma PerfTextShape(e: string, g: string, sep: string)
    requires sep == "_gw" || sep == "_gw_"
    requires |e| > 0 && forall k :: 0 <= k < |e| ==> IsIntChar(e[k])
    ensures
      var key := "perf_" + e + "_gw_" + g;
      var k := 5 + |e|;
      && OccursAt(key, sep, k)
      && (forall j :: 0 <= j < k ==> !OccursAt(key, sep, j))
      && key[k + |sep|..] == (if sep == "_gw" then "_" else "") + g
  {
    var key := "perf_" + e + "_gw_" + g;
    var k := 5 + |e|;
    assert key[k..k + 4] == "_gw_";
    assert key[k..k + |sep|] == sep;
    forall j | 0 <= j < k ensures !OccursAt(key, sep, j) {
      if j + |sep| <= |key| {
        var w := key[j..j + |sep|];
        if j < 4 {
          assert w[0] == key[j] == "perf_"[j];
        } else if j == 4 {
          assert w[1] == key[5] == e[0];
        } else {
          assert w[0] == key[j] == e[j - 5];
        }
      }
    }
    assert key[k + 4..] == g;
    if sep == "_gw" {
      assert key[k + |sep|..] == "_" + g;
    }
  }

  /** `_gw` does not occur in `_<g>`: the character after the `_` is a digit or `-`. */
  lemma NoGwAfterUnderscore(g: int)
    ensures var rest := "_" + IntToString(g);
      forall j :: 0 <= j <= |rest| ==> !OccursAt(rest, "_gw", j)
  {
    var digits := IntToString(g);
    var rest := "_" + digits;
    forall j | 0 <= j <= |rest| ensures !OccursAt(rest, "_gw", j) {
      if j + 3 <= |rest| {
        var w := rest[j..j + 3];
        if j == 0 {
          assert w[1] == rest[1] == digits[0];
        } else {
          assert w[0] == rest[j] == digits[j - 1];
        }
      }
    }
  }

  /** The as-written parse yields 0 on every performance id, whatever its gameweek. */
  lemma PerfGameweekAsWrittenIsZero(entryId: int, gameweek: int)
    ensures PerfGameweekAsWritten(PerformanceKey(entryId, gameweek)) == 0
  {
    var key := PerformanceKey(entryId, gameweek);
    var k := 5 + |IntToString(entryId)|;
    var rest := "_" + IntToString(gameweek);
    PerfKeyShape(entryId, gameweek, "_gw");
    NoGwAfterUnderscore(gameweek);
    LastOfSplit(key, "_gw", k, rest);
    assert !IsDigit(rest[0]);
  }

  /** The corrected parse reads back the gameweek of every performance id (0 for a negative one). */
  lemma PerfGameweekRoundTrip(entryId: int, gameweek: int)
    ensures PerfGameweek(PerformanceKey(entryId, gameweek)) == if gameweek >= 0 then gameweek else 0
  {
    PerfGameweekPiece(entryId, gameweek);
    DigitsOrZeroOfInt(gameweek);
  }

  /** The piece after the last `_gw_` of a performance id is the gameweek's text. */
  lemma PerfGameweekPiece(entryId: int, gameweek: int)
    ensures Last(Split(PerformanceKey(entryId, gameweek), "_gw_")) == IntToString(gameweek)
  {
    var g := IntToString(gameweek);
    PerfKeyShape(entryId, gameweek, "_gw_");
    NoOccurrenceWithoutHead(g, "_gw_", 0);
    LastOfSplit(PerformanceKey(entryId, gameweek), "_gw_", 5 + |IntToString(entryId)|, g);
  }

  /** Reading an int's text with `int(s) if s.isdigit() else 0` gives the int, or 0 for a negative one. */
  lemma DigitsOrZeroOfInt(n: int)
    ensures DigitsOrZero(IntToString(n)) == if n >= 0 then n else 0
  {
    if n >= 0 {
      ParseNatToString(n);
    }
  }

  /**
   * The row of a manager's performance node: as written it carries gameweek 0; with the
   * corrected parse it carries the gameweek its id was built with.
   */
  lemma PerfRowGameweek(entryId: int, gameweek: nat, p: PerfProps)
    ensures PerfRowOf(AsWritten, PerformanceKey(entryId, gameweek), p).gameweek == 0
    ensures PerfRowOf(Corrected, PerformanceKey(entryId, gameweek), p).gameweek == gameweek
  {
    PerfGameweekAsWrittenIsZero(entryId, gameweek);
    PerfGameweekRoundTrip(entryId, gameweek);
  }

  // ---------------------------------------------------------------------------
  // Transfer nodes

  datatype TransferProps = TransferProps(
    manager: Option<string>, gameweek: Option<string>, playerIn: Option<string>, playerOut: Option<string>,
    transferCost: Option<int>, playerInPrice: Option<int>, playerOutPrice: Option<int>,
    pointsGainedNext3GW: Option<int>, wasSuccessful: Option<bool>, netBenefit: Option<int>)

  datatype TransferNode = TransferNode(externalId: string, props: Option<TransferProps>)

  /** One row of the transfer table; its gameweek column is parsed from the gameweek id. */
  datatype TransferRow = TransferRow(
    externalId: string, managerId: string, gameweekId: string, playerInId: string, playerOutId: string,
    transferCost: int, playerInPrice: int, playerOutPrice: int, pointsGainedNext3GW: int,
    wasSuccessful: bool, netBenefit: int)
  {
    /** The `gameweek` column. */
    function Gameweek(): nat {
      TransferGameweek(gameweekId)
    }
  }

  /** The gameweek number of a gameweek id: the piece after the last `_`, 0 for an empty id. */
  function TransferGameweek(gameweekId: string): nat {
    DigitsOrZero(if gameweekId == "" then "0" else Last(Split(gameweekId, "_")))
  }

  /** The transfer parse reads back every gameweek id (0 for a negative one). */
  lemma TransferGameweekRoundTrip(n: int)
    ensures TransferGameweek(GameweekKey(n)) == if n >= 0 then n else 0
  {
    assert GameweekKey(n) == "gameweek" + "_" + IntToString(n);
    SplitWordInt("gameweek", n);
    DigitsOrZeroOfInt(n);
  }

  /** An empty id, or one whose last `_` piece is not all digits, yields gameweek 0. */
  lemma TransferGameweekZero(gameweekId: string)
    ensures gameweekId == "" ==> TransferGameweek(gameweekId) == 0
    ensures gameweekId != "" && !IsDigits(Last(Split(gameweekId, "_"))) ==> TransferGameweek(gameweekId) == 0
  {
    if gameweekId == "" {
      assert ParseDigits("0") == ParseDigits("") * 10 + DigitValue('0');
    }
  }

  function TransferRowOf(externalId: string, p: TransferProps): TransferRow {
    TransferRow(externalId, p.manager.GetOr(""), p.gameweek.GetOr(""),
      p.playerIn.GetOr(""), p.playerOut.GetOr(""), p.transferCost.GetOr(0),
      p.playerInPrice.GetOr(0), p.playerOutPrice.GetOr(0), p.pointsGainedNext3GW.GetOr(0),
      p.wasSuccessful.GetOr(false), p.netBenefit.GetOr(0))
  }

  /** One row per node carrying properties, in listing order. */
  function TransferRows(nodes: seq<TransferNode>): seq<TransferRow> {
    if |nodes| == 0 then []
    else
      var n := nodes[|nodes| - 1];
      TransferRows(nodes[..|nodes| - 1])
        + if n.props.Some? then [TransferRowOf(n.externalId, n.props.value)] else []
  }

  /** `fetch_transfer_data`. */
  method FetchTransferData(nodes: seq<TransferNode>) returns (rows: seq<TransferRow>)
    ensures rows == TransferRows(nodes)
    ensures |rows| <= |nodes|
  {
    rows := [];
    var i := 0;
    while i < |nodes|
      invariant 0 <= i <= |nodes|
      invariant rows == TransferRows(nodes[..i])
      invariant |rows| <= i
    {
      var n := nodes[i];
      assert nodes[..i + 1][..i] == nodes[..i];
      if n.props.Some? {
        rows := rows + [TransferRowOf(n.externalId, n.props.value)];
      }
      i := i + 1;
    }
    assert nodes[..i] == nodes;
  }

  /** Every node with properties gives a row, and every row comes from such a node. */
  lemma {:induction false} TransferRowsComplete(nodes: seq<TransferNode>)
    ensures |TransferRows(nodes)| <= |nodes|
    ensures |TransferRows(nodes)| == |nodes| <==> forall i :: 0 <= i < |nodes| ==> nodes[i].props.Some?
    decreases |nodes|
  {
    if |nodes| > 0 {
      var init := nodes[..|nodes| - 1];
      TransferRowsComplete(init);
      if forall i :: 0 <= i < |nodes| ==> nodes[i].props.Some? {
        assert forall i :: 0 <= i < |init| ==> init[i] == nodes[i];
      } else if nodes[|nodes| - 1].props.Some? {
        var i :| 0 <= i < |nodes| && nodes[i].props.None?;
        assert init[i] == nodes[i];
      }
    }
  }

  // ---------------------------------------------------------------------------
  // Transfer success arithmetic

  /** The rows of the selected managers, the manager id mapped to a name first. */
  function SelectedTransfers(rows: seq<TransferRow>, names: map<string, string>, selected: set<string>): seq<TransferRow> {
    if |rows| == 0 then []
    else
      var r := rows[|rows| - 1];
      SelectedTransfers(rows[..|rows| - 1], names, selected)
        + if r.managerId in names && names[r.managerId] in selected then [r] else []
  }

  /** `transfers["was_successful"].sum()`. */
  function SuccessCount(rows: seq<TransferRow>): (n: nat)
    ensures n <= |rows|
  {
    if |rows| == 0 then 0
    else SuccessCount(rows[..|rows| - 1]) + if rows[|rows| - 1].wasSuccessful then 1 else 0
  }

  /** `successful / total * 100 if total > 0 else 0`. */
  function SuccessRate(successful: int, total: int): real {
    if total > 0 then (successful as real / total as real) * 100.0 else 0.0
  }

  /** The rate is a percentage: 100 exactly when all succeed, 0 exactly when none does or there are none. */
  lemma SuccessRateRange(successful: nat, total: nat)
    requires successful <= total
    ensures 0.0 <= SuccessRate(successful, total) <= 100.0
    ensures SuccessRate(successful, total) == 100.0 <==> total > 0 && successful == total
    ensures SuccessRate(successful, total) == 0.0 <==> successful == 0
  {
    if total > 0 {
      var q := successful as real / total as real;
      assert q * total as real == successful as real;
      if q > 1.0 {
        calc {
          successful as real;
          == q * total as real;
          > { MulMore(q, total as real); } total as real;
        }
      }
      if q < 0.0 {
        calc {
          successful as real;
          == q * total as real;
          < { MulNegative(q, total as real); } 0.0;
        }
      }
      if q == 1.0 {
        assert successful as real == total as real;
      }
    }
  }

  lemma MulMore(q: real, t: real)
    requires q > 1.0 && t > 0.0
    ensures q * t > t
  {
    assert q * t == t + (q - 1.0) * t;
  }

  lemma MulNegative(q: real, t: real)
    requires q < 0.0 && t > 0.0
    ensures q * t < 0.0
  {
  }

  /** One row of the per-manager table before its derived columns. */
  datatype ManagerTransfers = ManagerTransfers(successful: nat, total: nat, totalBenefit: int, totalCost: int)

  /** The rows of one manager name. */
  function RowsOfManager(rows: seq<TransferRow>, names: map<string, string>, name: string): seq<TransferRow> {
    if |rows| == 0 then []
    else
      var r := rows[|rows| - 1];
      RowsOfManager(rows[..|rows| - 1], names, name)
        + if r.managerId in names && names[r.managerId] == name then [r] else []
  }

  function SumBenefit(rows: seq<TransferRow>): int {
    if |rows| == 0 then 0 else SumBenefit(rows[..|rows| - 1]) + rows[|rows| - 1].netBenefit
  }

  function SumCost(rows: seq<TransferRow>): int {
    if |rows| == 0 then 0 else SumCost(rows[..|rows| - 1]) + rows[|rows| - 1].transferCost
  }

  /** The group of one manager: successes, count, total benefit and total cost. */
  function ManagerTransfersOf(rows: seq<TransferRow>, names: map<string, string>, name: string): ManagerTransfers {
    var own := RowsOfManager(rows, names, name);
    ManagerTransfers(SuccessCount(own), |own|, SumBenefit(own), SumCost(own))
  }

  /** The "Unsuccessful" bar: count minus successes. */
  function Unsuccessful(m: ManagerTransfers): int {
    m.total - m.successful
  }

  /** The "Net Gain" column. */
  function NetGain(m: ManagerTransfers): int {
    m.totalBenefit - m.totalCost
  }

  /** The net benefit minus cost of each transfer, summed. */
  function SumNet(rows: seq<TransferRow>): int {
    if |rows| == 0 then 0 else SumNet(rows[..|rows| - 1]) + (rows[|rows| - 1].netBenefit - rows[|rows| - 1].transferCost)
  }

  /** A manager's unsuccessful count lies between 0 and the count, and the rate is a percentage. */
  lemma ManagerCounts(rows: seq<TransferRow>, names: map<string, string>, name: string)
    ensures var m := ManagerTransfersOf(rows, names, name);
      && 0 <= Unsuccessful(m) <= m.total
      && 0.0 <= SuccessRate(m.successful, m.total) <= 100.0
  {
    var m := ManagerTransfersOf(rows, names, name);
    SuccessRateRange(m.successful, m.total);
  }

  /** A manager's net gain is the sum over that manager's transfers of benefit minus cost. */
  lemma {:induction false} NetGainIsSumOfNet(rows: seq<TransferRow>)
    ensures SumBenefit(rows) - SumCost(rows) == SumNet(rows)
    decreases |rows|
  {
    if |rows| > 0 {
      NetGainIsSumOfNet(rows[..|rows| - 1]);
    }
  }

  lemma ManagerNetGain(rows: seq<TransferRow>, names: map<string, string>, name: string)
    ensures NetGain(ManagerTransfersOf(rows, names, name)) == SumNet(RowsOfManager(rows, names, name))
  {
    NetGainIsSumOfNet(RowsOfManager(rows, names, name));
  }

  /** A manager's group holds exactly the rows mapped to that name. */
  lemma {:induction false} RowsOfManagerMembers(rows: seq<TransferRow>, names: map<string, string>, name: string, r: TransferRow)
    ensures r in RowsOfManager(rows, names, name) <==> r in rows && r.managerId in names && names[r.managerId] == name
    decreases |rows|
  {
    if |rows| > 0 {
      var init := rows[..|rows| - 1];
      RowsOfManagerMembers(init, names, name, r);
      assert rows == init + [rows[|rows| - 1]];
    }
  }

  /** The selection keeps exactly the rows whose manager maps to a selected name, in order. */
  lemma {:induction false} SelectedMembers(rows: seq<TransferRow>, names: map<string, string>, selected: set<string>, r: TransferRow)
    ensures r in SelectedTransfers(rows, names, selected)
      <==> r in rows && r.managerId in names && names[r.managerId] in selected
    ensures |SelectedTransfers(rows, names, selected)| <= |rows|
    decreases |rows|
  {
    if |rows| > 0 {
      var init := rows[..|rows| - 1];
      SelectedMembers(init, names, selected, r);
      assert rows == init + [rows[|rows| - 1]];
    }
  }

  /** The headline rate over the selection is a percentage, 0 when nothing is selected. */
  lemma SelectionRate(rows: seq<TransferRow>, names: map<string, string>, selected: set<string>)
    ensures var chosen := SelectedTransfers(rows, names, selected);
      && 0.0 <= SuccessRate(SuccessCount(chosen), |chosen|) <= 100.0
      && (|chosen| == 0 ==> SuccessRate(SuccessCount(chosen), |chosen|) == 0.0)
  {
    var chosen := SelectedTransfers(rows, names, selected);
    SuccessRateRange(SuccessCount(chosen), |chosen|);
  }
}
