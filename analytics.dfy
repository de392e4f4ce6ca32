/**
 * The per-manager analytics of the weekly update
 * (modules/fantasy-football/functions/fpl_weekly_update/handler.py): mean weekly points,
 * their population standard deviation, a consistency score clamped to [0, 100], the
 * growth of the team value and the number of transfers.
 *
 * Arithmetic is over the reals. The square root inside the standard deviation is a
 * parameter `sqrt`; the properties that need it ask only that it is a true square root
 * at the one point where it is used (`RootAt`).
 */
module Analytics {
  import opened Wrappers
  import opened FplApi

  function Sum(xs: seq<real>): real {
    if |xs| == 0 then 0.0 else xs[0] + Sum(xs[1..])
  }

  /** The arithmetic mean, `np.mean`. */
  function Mean(xs: seq<real>): real
    requires |xs| > 0
  {
    Sum(xs) / (|xs| as real)
  }

  lemma MulPositive(a: real, b: real)
    requires a > 0.0 && b > 0.0
    ensures a * b > 0.0
  {
  }

  lemma MulNonNegative(a: real, b: real)
    requires a >= 0.0 && b >= 0.0
    ensures a * b >= 0.0
  {
    if a > 0.0 && b > 0.0 {
      MulPositive(a, b);
    }
  }

  /** `d * d`. */
  function Square(d: real): real {
    d * d
  }

  /** A square is never negative, and positive away from zero. */
  lemma SquareSign(d: real)
    ensures Square(d) >= 0.0
    ensures d != 0.0 ==> Square(d) > 0.0
  {
    if d > 0.0 {
      calc {
        Square(d);
        d * d;
      > { MulPositive(d, d); }
        0.0;
      }
    } else if d < 0.0 {
      calc {
        Square(d);
        (-d) * (-d);
      > { MulPositive(-d, -d); }
        0.0;
      }
    }
  }

  /** The sum of the squared distances of the values from `c`. */
  function SquaredDeviation(xs: seq<real>, c: real): (d: real)
    ensures d >= 0.0
  {
    if |xs| == 0 then 0.0
    else
      SquareSign(xs[0] - c);
      Square(xs[0] - c) + SquaredDeviation(xs[1..], c)
  }

  /** The population variance, the square of what `np.std` returns. */
  function Variance(xs: seq<real>): (v: real)
    requires |xs| > 0
    ensures v >= 0.0
  {
    SquaredDeviation(xs, Mean(xs)) / (|xs| as real)
  }

  /** `sqrt` gives the non-negative square root of `x`. */
  predicate RootAt(sqrt: real -> real, x: real) {
    sqrt(x) >= 0.0 && Square(sqrt(x)) == x
  }

  function Min(a: real, b: real): real {
    if a <= b then a else b
  }

  function Max(a: real, b: real): real {
    if a >= b then a else b
  }

  /** `max(0, min(100, 100 * (1 - min(std / mean, 1))))`. */
  function ConsistencyScore(mean: real, std: real): (score: real)
    requires mean > 0.0
    ensures 0.0 <= score <= 100.0
  {
    Max(0.0, Min(100.0, 100.0 * (1.0 - Min(std / mean, 1.0))))
  }

  /** `[gw['points'] for gw in current]`. */
  function WeeklyPoints(history: seq<EntryRound>): (points: seq<real>)
    ensures |points| == |history|
    ensures forall i :: 0 <= i < |history| ==> points[i] == history[i].points as real
  {
    if |history| == 0 then [] else [history[0].points as real] + WeeklyPoints(history[1..])
  }

  /** `sum(gw.get('event_transfers', 0) for gw in current)`. */
  function TotalTransfers(history: seq<EntryRound>): int {
    if |history| == 0 then 0 else history[0].eventTransfers.GetOr(0) + TotalTransfers(history[1..])
  }

  /** An amount held in tenths, as a decimal (`value / 10.0`). */
  function Tenths(amount: int): real {
    (amount as real) / 10.0
  }

  /** The figures the weekly update derives from one manager's history. */
  datatype Analysis = Analysis(
    mean: real, std: real, consistency: real, valueGrowth: real, transfers: int)

  /** The case in which the score is computed from the spread rather than set to 0. */
  predicate Spread(history: seq<EntryRound>) {
    |history| > 1 && Mean(WeeklyPoints(history)) > 0.0
  }

  /** The analytics block of the weekly update for one manager. */
  function Analyse(history: seq<EntryRound>, sqrt: real -> real): (a: Analysis)
    ensures |history| > 0 ==> a.mean == Mean(WeeklyPoints(history))
    ensures 0.0 <= a.consistency <= 100.0
    ensures Spread(history) ==> a.std == sqrt(Variance(WeeklyPoints(history)))
    ensures Spread(history) ==> a.consistency == ConsistencyScore(a.mean, a.std)
    ensures !Spread(history) ==> a.std == 0.0
  {
    if |history| == 0 then Analysis(0.0, 0.0, 0.0, 0.0, 0)
    else
      var points := WeeklyPoints(history);
      var growth := Tenths(history[|history| - 1].value) - Tenths(history[0].value);
      var transfers := TotalTransfers(history);
      if |points| > 1 && Mean(points) > 0.0 then
        var mean := Mean(points);
        var std := sqrt(Variance(points));
        Analysis(mean, std, ConsistencyScore(mean, std), growth, transfers)
      else
        Analysis(Mean(points), 0.0, 0.0, growth, transfers)
  }

  // ---------------------------------------------------------------------------
  // Properties of the statistics

  /** Every value equals `c`. */
  predicate AllEqual(xs: seq<real>, c: real) {
    forall i :: 0 <= i < |xs| ==> xs[i] == c
  }

  lemma TailAllEqual(xs: seq<real>, c: real)
    requires |xs| > 0
    ensures AllEqual(xs, c) <==> xs[0] == c && AllEqual(xs[1..], c)
  {
    if xs[0] == c && AllEqual(xs[1..], c) {
      forall i | 0 < i < |xs| ensures xs[i] == c {
        assert xs[i] == xs[1..][i - 1];
      }
    }
  }

  lemma {:induction false} SumOfEqual(xs: seq<real>, c: real)
    requires AllEqual(xs, c)
    ensures Sum(xs) == (|xs| as real) * c
  {
    if |xs| > 0 {
      TailAllEqual(xs, c);
      SumOfEqual(xs[1..], c);
    }
  }

  /** The squared deviation from `c` is zero exactly when every value is `c`. */
  lemma {:induction false} SquaredDeviationZero(xs: seq<real>, c: real)
    ensures SquaredDeviation(xs, c) == 0.0 <==> AllEqual(xs, c)
  {
    if |xs| > 0 {
      SquaredDeviationZero(xs[1..], c);
      TailAllEqual(xs, c);
      SquareSign(xs[0] - c);
    }
  }

  lemma QuotientZero(x: real, n: real)
    requires n > 0.0
    ensures x / n == 0.0 <==> x == 0.0
  {
    assert x == (x / n) * n;
  }

  /** The variance is zero exactly when all values are equal (to the first of them). */
  lemma VarianceZero(xs: seq<real>)
    requires |xs| > 0
    ensures Variance(xs) == 0.0 <==> AllEqual(xs, xs[0])
  {
    var m := Mean(xs);
    SquaredDeviationZero(xs, m);
    QuotientZero(SquaredDeviation(xs, m), |xs| as real);
    if AllEqual(xs, xs[0]) {
      SumOfEqual(xs, xs[0]);
      assert Sum(xs) / (|xs| as real) == xs[0];
    }
  }

  /** A true square root is zero exactly at zero. */
  lemma RootZero(sqrt: real -> real, x: real)
    requires RootAt(sqrt, x)
    ensures sqrt(x) == 0.0 <==> x == 0.0
  {
    SquareSign(sqrt(x));
  }

  /** Comparing non-negative numbers is comparing their squares. */
  lemma SquareMonotone(a: real, b: real)
    requires a >= 0.0 && b >= 0.0
    ensures a >= b <==> Square(a) >= Square(b)
  {
    assert Square(a) - Square(b) == (a - b) * (a + b);
    if a >= b {
      MulNonNegative(a - b, a + b);
    } else {
      MulPositive(b - a, b + a);
    }
  }

  // ---------------------------------------------------------------------------
  // Properties of the consistency score

  /** The ratio of a spread to a positive mean. */
  lemma Ratio(std: real, mean: real)
    requires mean > 0.0 && std >= 0.0
    ensures std / mean >= 0.0
    ensures std / mean == 0.0 <==> std == 0.0
    ensures std / mean >= 1.0 <==> std >= mean
  {
    var cv := std / mean;
    assert std == cv * mean;
    if cv < 0.0 {
      calc {
        std;
        cv * mean;
        -((-cv) * mean);
      < { MulPositive(-cv, mean); }
        0.0;
      }
    }
    if cv >= 1.0 {
      calc {
        std - mean;
        (cv - 1.0) * mean;
      >= { MulNonNegative(cv - 1.0, mean); }
        0.0;
      }
    } else {
      calc {
        mean - std;
        (1.0 - cv) * mean;
      > { MulPositive(1.0 - cv, mean); }
        0.0;
      }
    }
  }

  /** With a positive mean and no negative spread the clamps never bite. */
  lemma ScoreUnclamped(mean: real, std: real)
    requires mean > 0.0 && std >= 0.0
    ensures ConsistencyScore(mean, std) == 100.0 * (1.0 - Min(std / mean, 1.0))
  {
    Ratio(std, mean);
  }

  /** The score is 100 exactly when the spread is zero. */
  lemma ScoreFull(mean: real, std: real)
    requires mean > 0.0 && std >= 0.0
    ensures ConsistencyScore(mean, std) == 100.0 <==> std == 0.0
  {
    Ratio(std, mean);
    ScoreUnclamped(mean, std);
  }

  /** The score is 0 exactly when the spread reaches the mean. */
  lemma ScoreEmpty(mean: real, std: real)
    requires mean > 0.0 && std >= 0.0
    ensures ConsistencyScore(mean, std) == 0.0 <==> std >= mean
  {
    Ratio(std, mean);
    ScoreUnclamped(mean, std);
  }

  /** For a fixed positive mean, a larger spread never scores higher. */
  lemma ScoreAntitone(mean: real, std1: real, std2: real)
    requires mean > 0.0 && std1 <= std2
    ensures ConsistencyScore(mean, std1) >= ConsistencyScore(mean, std2)
  {
    assert std2 / mean - std1 / mean == (std2 - std1) / mean;
    assert (std2 - std1) / mean >= 0.0 by {
      Ratio(std2 - std1, mean);
    }
  }

  // ---------------------------------------------------------------------------
  // Properties of the analysis of one history

  /** No history: every figure is zero. */
  lemma AnalyseEmpty(sqrt: real -> real)
    ensures Analyse([], sqrt) == Analysis(0.0, 0.0, 0.0, 0.0, 0)
  {
  }

  /**
   * One week, or a mean that is not positive: no spread and a score of 0 (not 100),
   * while the mean is still the arithmetic mean; one week's mean is that week's points.
   */
  lemma AnalyseNoSpread(history: seq<EntryRound>, sqrt: real -> real)
    requires |history| > 0 && !Spread(history)
    ensures Analyse(history, sqrt).std == 0.0 && Analyse(history, sqrt).consistency == 0.0
    ensures Analyse(history, sqrt).mean == Mean(WeeklyPoints(history))
    ensures |history| == 1 ==> Analyse(history, sqrt).mean == history[0].points as real
  {
    var points := WeeklyPoints(history);
    if |history| == 1 {
      assert points[1..] == [];
      assert Sum(points) == points[0];
    }
  }

  /**
   * With a spread, the score is 100 exactly when every week scored the same points,
   * and then the deviation is 0.
   */
  lemma AnalyseConsistent(history: seq<EntryRound>, sqrt: real -> real)
    requires Spread(history) && RootAt(sqrt, Variance(WeeklyPoints(history)))
    ensures Analyse(history, sqrt).consistency == 100.0
      <==> forall i :: 0 <= i < |history| ==> history[i].points == history[0].points
    ensures (forall i :: 0 <= i < |history| ==> history[i].points == history[0].points)
      ==> Analyse(history, sqrt).std == 0.0
  {
    var points := WeeklyPoints(history);
    var a := Analyse(history, sqrt);
    ScoreFull(a.mean, a.std);
    RootZero(sqrt, Variance(points));
    VarianceZero(points);
    assert AllEqual(points, points[0])
      <==> forall i :: 0 <= i < |history| ==> history[i].points == history[0].points;
  }

  /** With a spread, the score is 0 exactly when the variance reaches the squared mean. */
  lemma AnalyseInconsistent(history: seq<EntryRound>, sqrt: real -> real)
    requires Spread(history) && RootAt(sqrt, Variance(WeeklyPoints(history)))
    ensures Analyse(history, sqrt).consistency == 0.0
      <==> Variance(WeeklyPoints(history)) >= Square(Mean(WeeklyPoints(history)))
  {
    var a := Analyse(history, sqrt);
    ScoreEmpty(a.mean, a.std);
    SquareMonotone(a.std, a.mean);
  }

  /** The value growth is last value minus first value, in tenths. */
  lemma AnalyseGrowth(history: seq<EntryRound>, sqrt: real -> real)
    requires |history| > 0
    ensures Analyse(history, sqrt).valueGrowth
      == ((history[|history| - 1].value - history[0].value) as real) / 10.0
  {
  }

  /** Weeks between the first and the last do not affect the value growth. */
  lemma GrowthIgnoresMiddle(h1: seq<EntryRound>, h2: seq<EntryRound>, sqrt: real -> real)
    requires |h1| > 0 && |h2| > 0
    requires h1[0].value == h2[0].value && h1[|h1| - 1].value == h2[|h2| - 1].value
    ensures Analyse(h1, sqrt).valueGrowth == Analyse(h2, sqrt).valueGrowth
  {
  }

  /** The analysis of consecutive stretches of weeks counts the transfers of both. */
  lemma AnalyseTransfersAppend(h1: seq<EntryRound>, h2: seq<EntryRound>, sqrt: real -> real)
    ensures Analyse(h1 + h2, sqrt).transfers == Analyse(h1, sqrt).transfers + Analyse(h2, sqrt).transfers
  {
    TotalTransfersAppend(h1, h2);
  }

  /** A further week without an `event_transfers` figure leaves the analysed transfers unchanged. */
  lemma AnalyseTransfersMissing(h: seq<EntryRound>, week: EntryRound, sqrt: real -> real)
    requires week.eventTransfers.None?
    ensures Analyse(h + [week], sqrt).transfers == Analyse(h, sqrt).transfers
  {
    TotalTransfersMissing(h, week);
  }

  /** Transfers of consecutive stretches of weeks add up. */
  lemma {:induction false} TotalTransfersAppend(h1: seq<EntryRound>, h2: seq<EntryRound>)
    ensures TotalTransfers(h1 + h2) == TotalTransfers(h1) + TotalTransfers(h2)
  {
    if |h1| == 0 {
      assert h1 + h2 == h2;
    } else {
      assert (h1 + h2)[0] == h1[0];
      assert (h1 + h2)[1..] == h1[1..] + h2;
      TotalTransfersAppend(h1[1..], h2);
    }
  }

  /** A week without an `event_transfers` figure counts no transfers. */
  lemma TotalTransfersMissing(h: seq<EntryRound>, week: EntryRound)
    requires week.eventTransfers.None?
    ensures TotalTransfers(h + [week]) == TotalTransfers(h)
  {
    TotalTransfersAppend(h, [week]);
  }
}
