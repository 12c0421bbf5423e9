/**
 * The two chart series that are computed rather than drawn: the win rate per
 * sentiment (panel 2) and the cumulative PnL per sentiment over time (panel 6).
 */
module Charts {
  import opened Wrappers
  import opened Trades
  import opened Masks
  import opened Loading
  import opened Hypotheses

  // ----- Panel 2: win rate -----

  /**
   * The win rate of one label's group as a percentage, None when the label has
   * no trades (the NaN the reindex leaves). It lies in [0, 100], is 100 when
   * every trade of the label made money and 0 when none did.
   */
  function WinRate(closed: seq<Trade>, sentiment: string): (r: Option<real>)
    ensures r.None? <==> forall t :: t in closed ==> t.classification != Some(sentiment)
    ensures r.Some? ==> 0.0 <= r.value <= 100.0
    ensures r.Some? && (forall t :: t in closed && t.classification == Some(sentiment) ==> t.closedPnl > 0.0) ==>
      r.value == 100.0
    ensures r.Some? && (forall t :: t in closed && t.classification == Some(sentiment) ==> t.closedPnl <= 0.0) ==>
      r.value == 0.0
  {
    var slice := RowsWithLabel(closed, sentiment);
    RowsWithLabelComplete(closed, sentiment);
    if |slice| == 0 then None
    else
      var wins := WinCount(slice);
      RatioBounds(wins, |slice|);
      Some(wins as real / |slice| as real * 100.0)
  }

  lemma {:induction false} RatioBounds(wins: nat, n: nat)
    requires 0 < n && wins <= n
    ensures 0.0 <= wins as real / n as real * 100.0 <= 100.0
    ensures wins == n ==> wins as real / n as real * 100.0 == 100.0
    ensures wins == 0 ==> wins as real / n as real * 100.0 == 0.0
  {
  }

  /** `win_rates` after `.reindex(sentiment_order)`: one value per level of the scale, in order. */
  function WinRates(closed: seq<Trade>): (rates: seq<Option<real>>)
    ensures |rates| == |SentimentOrder|
    ensures forall i :: 0 <= i < |rates| ==>
      (rates[i].None? <==> forall t :: t in closed ==> t.classification != Some(SentimentOrder[i]))
    ensures forall i :: 0 <= i < |rates| && rates[i].Some? ==> 0.0 <= rates[i].value <= 100.0
    ensures forall i :: 0 <= i < |rates| ==> rates[i] == WinRate(closed, SentimentOrder[i])
  {
    seq(|SentimentOrder|, i requires 0 <= i < |SentimentOrder| => WinRate(closed, SentimentOrder[i]))
  }

  /** The win rate is the contingency table's win column over its row total, times 100. */
  lemma {:induction false} WinRateFromContingency(closed: seq<Trade>, sentiment: string)
    requires sentiment in Crosstab(closed)
    ensures Crosstab(closed)[sentiment].Total() > 0
    ensures WinRate(closed, sentiment) ==
      Some(Crosstab(closed)[sentiment].wins as real / Crosstab(closed)[sentiment].Total() as real * 100.0)
  {
    ContingencyRows(closed, sentiment);
  }

  // ----- Panel 6: cumulative PnL -----

  predicate SortedByDate(rows: seq<Trade>)
  {
    forall i, j :: 0 <= i < j < |rows| ==> rows[i].date <= rows[j].date
  }

  /** Insert `t` into a date-sorted table, ahead of the rows with the same or a later date. */
  function InsertByDate(t: Trade, sorted: seq<Trade>): (r: seq<Trade>)
    requires SortedByDate(sorted)
    ensures SortedByDate(r)
    ensures multiset(r) == multiset(sorted) + multiset{t}
    ensures |r| == |sorted| + 1
  {
    if sorted == [] || t.date <= sorted[0].date then [t] + sorted
    else
      var rest := InsertByDate(t, sorted[1..]);
      assert sorted == [sorted[0]] + sorted[1..];
      assert forall k :: 0 <= k < |rest| ==> sorted[0].date <= rest[k].date by {
        forall k | 0 <= k < |rest| ensures sorted[0].date <= rest[k].date {
          assert rest[k] in multiset(rest);
          assert rest[k] == t || rest[k] in sorted[1..];
        }
      }
      [sorted[0]] + rest
  }

  /** `sort_values('date')`: the same rows, in date order. */
  function SortByDate(rows: seq<Trade>): (r: seq<Trade>)
    ensures SortedByDate(r)
    ensures multiset(r) == multiset(rows)
  {
    if rows == [] then []
    else
      assert rows == [rows[0]] + rows[1..];
      InsertByDate(rows[0], SortByDate(rows[1..]))
  }

  function RunningSum(start: real, xs: seq<real>): (r: seq<real>)
    decreases |xs|
    ensures |r| == |xs|
    ensures forall i :: 0 <= i < |xs| ==> r[i] == start + Sum(xs[..i + 1])
  {
    if xs == [] then []
    else
      var rest := RunningSum(start + xs[0], xs[1..]);
      assert forall i :: 0 < i < |xs| ==> xs[..i + 1] == [xs[0]] + xs[1..][..i];
      [start + xs[0]] + rest
  }

  /** `cumsum()`: element `i` is the sum of the first `i + 1` values. */
  function CumSum(xs: seq<real>): (r: seq<real>)
    ensures |r| == |xs|
    ensures forall i :: 0 <= i < |xs| ==> r[i] == Sum(xs[..i + 1])
  {
    RunningSum(0.0, xs)
  }

  /** The panel-6 series of one sentiment: the running PnL over that sentiment's labelled rows in date order. */
  function CumulativePnl(df: seq<Trade>, sentiment: string): (c: seq<real>)
    ensures |c| == |RowsWithLabel(df, sentiment)|
  {
    assert |SortByDate(RowsWithLabel(df, sentiment))| == |multiset(RowsWithLabel(df, sentiment))|;
    CumSum(Pnls(SortByDate(RowsWithLabel(df, sentiment))))
  }

  /**
   * The series has one point per row of the sentiment, and point `i` is the
   * sum of the first `i + 1` PnL values in date order.
   */
  lemma {:induction false} CumulativePnlShape(df: seq<Trade>, sentiment: string)
    ensures |CumulativePnl(df, sentiment)| == |RowsWithLabel(df, sentiment)|
    ensures forall i :: 0 <= i < |CumulativePnl(df, sentiment)| ==>
      CumulativePnl(df, sentiment)[i] == Sum(Pnls(SortByDate(RowsWithLabel(df, sentiment)))[..i + 1])
  {
    var slice := RowsWithLabel(df, sentiment);
    var sorted := SortByDate(slice);
    assert |sorted| == |multiset(sorted)| == |multiset(slice)| == |slice|;
  }

  /**
   * The last point is the sentiment's total PnL, whatever order the sort
   * leaves rows of the same date in.
   */
  lemma {:induction false} CumulativePnlTotal(df: seq<Trade>, sentiment: string)
    ensures |CumulativePnl(df, sentiment)| > 0 ==>
      CumulativePnl(df, sentiment)[|CumulativePnl(df, sentiment)| - 1] == Sum(Pnls(RowsWithLabel(df, sentiment)))
  {
    var slice := RowsWithLabel(df, sentiment);
    var sorted := SortByDate(slice);
    SumPnlsPermutation(sorted, slice);
    assert Pnls(sorted)[..|sorted|] == Pnls(sorted);
  }

  /** Rows with a zero PnL add nothing to a total. */
  lemma {:induction false} SumPnlsClosed(rows: seq<Trade>)
    ensures Sum(Pnls(ClosedTrades(rows))) == Sum(Pnls(rows))
  {
    if rows != [] {
      SumPnlsClosed(rows[1..]);
      if rows[0].closedPnl != 0.0 {
        assert ClosedTrades(rows) == [rows[0]] + ClosedTrades(rows[1..]);
        assert Pnls([rows[0]] + ClosedTrades(rows[1..]))[1..] == Pnls(ClosedTrades(rows[1..]));
      }
    }
  }

  predicate ClosedWithLabel(t: Trade, sentiment: string) { t.closedPnl != 0.0 && t.classification == Some(sentiment) }

  /**
   * Panel 6 runs over all labelled rows of a sentiment, zero-PnL rows included,
   * yet its last point is the total of that sentiment's H1 group of closed PnL.
   */
  lemma {:induction false} CumulativeEndsAtGroupTotal(merged: seq<Trade>, i: nat)
    requires i < |SentimentOrder|
    ensures var c := CumulativePnl(LabelledRows(merged), SentimentOrder[i]);
      |c| > 0 ==> c[|c| - 1] == Sum(SentimentGroups(ClosedTrades(LabelledRows(merged)))[i])
  {
    var df := LabelledRows(merged);
    var s := SentimentOrder[i];
    CumulativePnlTotal(df, s);
    FilterFusion(IsClosed, (t: Trade) => HasLabel(t, s), (t: Trade) => ClosedWithLabel(t, s), df);
    FilterFusion((t: Trade) => HasLabel(t, s), IsClosed, (t: Trade) => ClosedWithLabel(t, s), df);
    assert RowsWithLabel(ClosedTrades(df), s) == ClosedTrades(RowsWithLabel(df, s));
    SumPnlsClosed(RowsWithLabel(df, s));
    SentimentGroupsExact(ClosedTrades(df), i);
  }
}
