/**
 * The two row filters every test starts from: rows whose left join found a
 * sentiment reading, and among them the closed trades (PnL different from 0,
 * which the dataset uses as the sentinel for "not closed").
 */
module Loading {
  import opened Trades
  import opened Masks
  import opened Wrappers

  /** `df`: the merged rows that carry a sentiment label. */
  function LabelledRows(merged: seq<Trade>): (df: seq<Trade>)
    ensures forall i :: 0 <= i < |df| ==> df[i].classification.Some?
    ensures Subseq(df, merged)
  {
    Filter(IsLabelled, merged)
  }

  /** `closed_trades`: the rows of `df` whose PnL is not zero. */
  function ClosedTrades(df: seq<Trade>): (closed: seq<Trade>)
    ensures forall i :: 0 <= i < |closed| ==> closed[i].closedPnl != 0.0
    ensures Subseq(closed, df)
  {
    Filter(IsClosed, df)
  }

  predicate IsLabelledClosed(t: Trade) { t.classification.Some? && t.closedPnl != 0.0 }

  /**
   * The closed-trade set of the whole pipeline is exactly the labelled rows with
   * a non-zero PnL, in the order of the merged table; none of them lacks a
   * label and none has a zero PnL.
   */
  lemma {:induction false} ClosedTradesExact(merged: seq<Trade>)
    ensures ClosedTrades(LabelledRows(merged)) == Filter(IsLabelledClosed, merged)
    ensures forall t :: multiset(ClosedTrades(LabelledRows(merged)))[t] ==
                        (if t.classification.Some? && t.closedPnl != 0.0 then multiset(merged)[t] else 0)
  {
    FilterFusion(IsClosed, IsLabelled, IsLabelledClosed, merged);
    FilterCount(IsLabelledClosed, merged);
  }

  /** On a closed trade the win flag is 0 exactly when the trade lost money. */
  lemma {:induction false} ClosedLossIsNegative(df: seq<Trade>)
    ensures forall t :: t in ClosedTrades(df) ==> (IsWin(t) == 1 <==> t.closedPnl > 0.0)
    ensures forall t :: t in ClosedTrades(df) ==> (IsWin(t) == 0 <==> t.closedPnl < 0.0)
  {
  }

  /** `rows[rows['classification'] == sentiment]`: the rows carrying one label. */
  function RowsWithLabel(rows: seq<Trade>, sentiment: string): (slice: seq<Trade>)
    ensures forall i :: 0 <= i < |slice| ==> slice[i].classification == Some(sentiment)
    ensures Subseq(slice, rows)
  {
    Filter((t: Trade) => HasLabel(t, sentiment), rows)
  }

  /** Every row carrying the label is in that label's slice. */
  lemma {:induction false} RowsWithLabelComplete(rows: seq<Trade>, sentiment: string)
    ensures forall t :: t in rows && t.classification == Some(sentiment) ==> t in RowsWithLabel(rows, sentiment)
  {
    var slice := RowsWithLabel(rows, sentiment);
    FilterCount((t: Trade) => HasLabel(t, sentiment), rows);
    forall t | t in rows && t.classification == Some(sentiment) ensures t in slice {
      assert multiset(slice)[t] == multiset(rows)[t];
    }
  }
}
