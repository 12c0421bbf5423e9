/**
 * The inputs of the four hypothesis tests: the five sentiment groups of closed
 * PnL (H1), the sentiment-by-win contingency table (H2), the long and short
 * samples per sentiment with the rule that skips a sentiment lacking either
 * side (H3), and the size/PnL pairs (H4). The tests themselves are not modelled.
 */
module Hypotheses {
  import opened Wrappers
  import opened Trades
  import opened Masks
  import opened Loading

  // ----- H1: sentiment groups -----

  /** The list comprehension over `sentiments`: one row group per label, in order. */
  function GroupsBy(closed: seq<Trade>, sentiments: seq<string>): (groups: seq<seq<Trade>>)
    ensures |groups| == |sentiments|
    ensures forall i :: 0 <= i < |groups| ==> groups[i] == RowsWithLabel(closed, sentiments[i])
  {
    if sentiments == [] then []
    else [RowsWithLabel(closed, sentiments[0])] + GroupsBy(closed, sentiments[1..])
  }

  /** The rows behind `sentiment_groups`, Extreme Fear first. */
  function SentimentRows(closed: seq<Trade>): (groups: seq<seq<Trade>>)
    ensures |groups| == |SentimentOrder|
    ensures forall i :: 0 <= i < |groups| ==> groups[i] == RowsWithLabel(closed, SentimentOrder[i])
  {
    GroupsBy(closed, SentimentOrder)
  }

  /** `sentiment_groups`: the PnL values of each of the five groups, the k-sample test's input. */
  function SentimentGroups(closed: seq<Trade>): (groups: seq<seq<real>>)
    ensures |groups| == |SentimentOrder|
    ensures forall i :: 0 <= i < |groups| ==> |groups[i]| == |SentimentRows(closed)[i]|
  {
    var rows := SentimentRows(closed);
    seq(|rows|, i requires 0 <= i < |rows| => Pnls(rows[i]))
  }

  function SumLengths<T>(groups: seq<seq<T>>): nat
  {
    if groups == [] then 0 else |groups[0]| + SumLengths(groups[1..])
  }

  lemma {:induction false} SumLengthsPointwise<A, B>(a: seq<seq<A>>, b: seq<seq<B>>)
    requires |a| == |b|
    requires forall i :: 0 <= i < |a| ==> |a[i]| == |b[i]|
    ensures SumLengths(a) == SumLengths(b)
  {
    if a != [] {
      SumLengthsPointwise(a[1..], b[1..]);
    }
  }

  predicate Distinct(xs: seq<string>)
  {
    forall i, j :: 0 <= i < j < |xs| ==> xs[i] != xs[j]
  }

  predicate LabelIn(t: Trade, sentiments: seq<string>)
  {
    t.classification.Some? && t.classification.value in sentiments
  }

  /** Grouping by distinct labels counts every row whose label is one of them exactly once. */
  lemma {:induction false} GroupsBySizes(closed: seq<Trade>, sentiments: seq<string>)
    requires Distinct(sentiments)
    ensures SumLengths(GroupsBy(closed, sentiments)) == |Filter((t: Trade) => LabelIn(t, sentiments), closed)|
  {
    if sentiments == [] {
      var none := Filter((t: Trade) => LabelIn(t, sentiments), closed);
      assert multiset(none) == multiset{};
    } else {
      var first := sentiments[0];
      var others := sentiments[1..];
      assert first !in others;
      assert forall x :: x in sentiments <==> x == first || x in others;
      FilterDisjointUnion((t: Trade) => HasLabel(t, first), (t: Trade) => LabelIn(t, others),
                          (t: Trade) => LabelIn(t, sentiments), closed);
      GroupsBySizes(closed, others);
      assert GroupsBy(closed, sentiments)[1..] == GroupsBy(closed, others);
    }
  }

  /** No closed trade is in two of the five groups. */
  lemma {:induction false} SentimentGroupsDisjoint(closed: seq<Trade>, i: nat, j: nat)
    requires i < j < |SentimentOrder|
    ensures forall t :: t in SentimentRows(closed)[i] ==> t !in SentimentRows(closed)[j]
  {
  }

  /** Group `i` holds exactly the closed trades labelled with the `i`-th sentiment, and their PnL values. */
  lemma {:induction false} SentimentGroupsExact(closed: seq<Trade>, i: nat)
    requires i < |SentimentOrder|
    ensures SentimentGroups(closed)[i] == Pnls(SentimentRows(closed)[i])
    ensures forall t :: multiset(SentimentRows(closed)[i])[t] ==
                        (if t.classification == Some(SentimentOrder[i]) then multiset(closed)[t] else 0)
  {
    FilterCount((t: Trade) => HasLabel(t, SentimentOrder[i]), closed);
  }

  /** The group sizes add up to the number of closed trades labelled with one of the five sentiments. */
  lemma {:induction false} SentimentGroupSizes(closed: seq<Trade>)
    ensures SumLengths(SentimentGroups(closed)) == |Filter((t: Trade) => LabelIn(t, SentimentOrder), closed)|
  {
    var groups := SentimentGroups(closed);
    var rows := SentimentRows(closed);
    assert Distinct(SentimentOrder);
    GroupsBySizes(closed, SentimentOrder);
    SumLengthsPointwise(groups, rows);
  }

  // ----- H2: contingency table -----

  /** One row of the crosstab: the counts for is_win = 0 and is_win = 1. */
  datatype CrossRow = CrossRow(losses: nat, wins: nat)
  {
    function Total(): nat { losses + wins }
  }

  function Tally(row: CrossRow, isWin: nat): CrossRow
  {
    if isWin == 1 then CrossRow(row.losses, row.wins + 1) else CrossRow(row.losses + 1, row.wins)
  }

  /**
   * `pd.crosstab(classification, is_win)`: a row for every label that occurs,
   * and no row for a label that does not; rows without a label are not counted.
   */
  function Crosstab(rows: seq<Trade>): (table: map<string, CrossRow>)
    ensures forall s :: s in table ==> table[s].Total() > 0
  {
    if rows == [] then map[]
    else
      var rest := Crosstab(rows[1..]);
      match rows[0].classification
      case None => rest
      case Some(s) => rest[s := Tally(if s in rest then rest[s] else CrossRow(0, 0), IsWin(rows[0]))]
  }

  /** The table has a row exactly for the labels that occur. */
  lemma {:induction false} CrosstabKeys(rows: seq<Trade>, sentiment: string)
    ensures sentiment in Crosstab(rows) <==> exists t :: t in rows && t.classification == Some(sentiment)
  {
    if rows != [] {
      CrosstabKeys(rows[1..], sentiment);
      assert forall t :: t in rows <==> t == rows[0] || t in rows[1..];
    }
  }

  /** Each cell counts the rows with that label and that win flag. */
  lemma {:induction false} CrosstabCells(rows: seq<Trade>, sentiment: string)
    ensures sentiment in Crosstab(rows) ==>
      Crosstab(rows)[sentiment].wins == |Filter(IsWinning, RowsWithLabel(rows, sentiment))| &&
      Crosstab(rows)[sentiment].losses == |Filter(IsLosing, RowsWithLabel(rows, sentiment))|
    ensures sentiment !in Crosstab(rows) ==> RowsWithLabel(rows, sentiment) == []
  {
    if rows != [] {
      var head, rest := rows[0], rows[1..];
      CrosstabCells(rest, sentiment);
      var slice := RowsWithLabel(rest, sentiment);
      if head.classification == Some(sentiment) {
        assert RowsWithLabel(rows, sentiment) == [head] + slice;
        assert ([head] + slice)[1..] == slice;
      } else {
        assert RowsWithLabel(rows, sentiment) == slice;
      }
    }
  }

  lemma {:induction false} WinCountIsWinningRows(rows: seq<Trade>)
    ensures WinCount(rows) == |Filter(IsWinning, rows)|
  {
    if rows != [] {
      WinCountIsWinningRows(rows[1..]);
    }
  }

  /**
   * Every row of the contingency table sums to that label's number of rows,
   * and its win column is that label's sum of is_win.
   */
  lemma {:induction false} ContingencyRows(closed: seq<Trade>, sentiment: string)
    requires sentiment in Crosstab(closed)
    ensures Crosstab(closed)[sentiment].Total() == |RowsWithLabel(closed, sentiment)| > 0
    ensures Crosstab(closed)[sentiment].wins == WinCount(RowsWithLabel(closed, sentiment))
  {
    var slice := RowsWithLabel(closed, sentiment);
    CrosstabKeys(closed, sentiment);
    RowsWithLabelComplete(closed, sentiment);
    var t :| t in closed && t.classification == Some(sentiment);
    assert t in slice;
    CrosstabCells(closed, sentiment);
    FilterComplement(IsWinning, IsLosing, slice);
    WinCountIsWinningRows(slice);
  }

  /** The sum of all cells of a table. */
  ghost function TableTotal(table: map<string, CrossRow>): nat
    decreases |table|
  {
    if table == map[] then 0
    else
      var s :| s in table;
      table[s].Total() + TableTotal(table - {s})
  }

  lemma {:induction false} TableTotalRemove(table: map<string, CrossRow>, s: string)
    requires s in table
    ensures TableTotal(table) == table[s].Total() + TableTotal(table - {s})
    decreases |table|
  {
    var k :| k in table && TableTotal(table) == table[k].Total() + TableTotal(table - {k});
    if k != s {
      TableTotalRemove(table - {k}, s);
      TableTotalRemove(table - {s}, k);
      assert table - {k} - {s} == table - {s} - {k};
    }
  }

  /** The grand total of the crosstab is the number of labelled rows. */
  lemma {:induction false} CrosstabTotal(rows: seq<Trade>)
    ensures TableTotal(Crosstab(rows)) == |Filter(IsLabelled, rows)|
  {
    if rows != [] {
      CrosstabTotal(rows[1..]);
      var rest := Crosstab(rows[1..]);
      match rows[0].classification
      case None =>
      case Some(s) =>
        var table := Crosstab(rows);
        TableTotalRemove(table, s);
        assert table - {s} == rest - {s};
        if s in rest {
          TableTotalRemove(rest, s);
        } else {
          assert rest - {s} == rest;
        }
    }
  }

  /**
   * On the pipeline's closed trades the contingency table's grand total is the
   * number of closed trades.
   */
  lemma {:induction false} ContingencyGrandTotal(merged: seq<Trade>)
    ensures TableTotal(Crosstab(ClosedTrades(LabelledRows(merged)))) == |ClosedTrades(LabelledRows(merged))|
  {
    var closed := ClosedTrades(LabelledRows(merged));
    ClosedTradesExact(merged);
    CrosstabTotal(closed);
    FilterAll(IsLabelled, closed);
  }

  // ----- H3: long versus short per sentiment -----

  predicate IsLongShortClosed(t: Trade) { IsLongOrShort(t) && IsClosed(t) }

  /** `long_short_data`: the Long or Short rows of `df` with a non-zero PnL. */
  function LongShortRows(df: seq<Trade>): (ls: seq<Trade>)
    ensures forall i :: 0 <= i < |ls| ==> PositionTypeOf(ls[i].direction) != Other && ls[i].closedPnl != 0.0
    ensures Subseq(ls, df)
  {
    Filter(IsLongShortClosed, df)
  }

  /** The long/short subset is the Long-or-Short part of the closed trades. */
  lemma {:induction false} LongShortRowsAreClosedTrades(df: seq<Trade>)
    ensures LongShortRows(df) == Filter(IsLongOrShort, ClosedTrades(df))
  {
    FilterFusion(IsLongOrShort, IsClosed, IsLongShortClosed, df);
  }

  /** The rows of one sentiment taken on one side (`long_pnl` or `short_pnl` before taking PnL). */
  function SideRows(ls: seq<Trade>, sentiment: string, side: PositionType): (rows: seq<Trade>)
    ensures forall i :: 0 <= i < |rows| ==>
      rows[i].classification == Some(sentiment) && PositionTypeOf(rows[i].direction) == side
    ensures |rows| <= |RowsWithLabel(ls, sentiment)|
  {
    Filter((t: Trade) => PositionTypeOf(t.direction) == side, RowsWithLabel(ls, sentiment))
  }

  /** Within one sentiment the long and short samples partition that sentiment's slice of the subset. */
  lemma {:induction false} SidesPartitionSentiment(df: seq<Trade>, sentiment: string)
    ensures multiset(SideRows(LongShortRows(df), sentiment, Long)) + multiset(SideRows(LongShortRows(df), sentiment, Short))
      == multiset(RowsWithLabel(LongShortRows(df), sentiment))
    ensures |SideRows(LongShortRows(df), sentiment, Long)| + |SideRows(LongShortRows(df), sentiment, Short)|
      == |RowsWithLabel(LongShortRows(df), sentiment)|
  {
    var slice := RowsWithLabel(LongShortRows(df), sentiment);
    var isLong := (t: Trade) => PositionTypeOf(t.direction) == Long;
    var isShort := (t: Trade) => PositionTypeOf(t.direction) == Short;
    var either := (t: Trade) => PositionTypeOf(t.direction) == Long || PositionTypeOf(t.direction) == Short;
    FilterDisjointUnion(isLong, isShort, either, slice);
    FilterAll(either, slice);
  }

  /** One Mann-Whitney comparison: a sentiment with its non-empty long and short PnL samples. */
  datatype Comparison = Comparison(sentiment: string, longPnl: seq<real>, shortPnl: seq<real>)

  /** The skip rule: the comparison runs only when both samples are non-empty. */
  predicate BothSides(ls: seq<Trade>, sentiment: string)
  {
    |SideRows(ls, sentiment, Long)| > 0 && |SideRows(ls, sentiment, Short)| > 0
  }

  function BothSidesIn(ls: seq<Trade>): string -> bool
  {
    s => BothSides(ls, s)
  }

  function SentimentsOf(cs: seq<Comparison>): (r: seq<string>)
    ensures |r| == |cs|
    ensures forall i :: 0 <= i < |cs| ==> r[i] == cs[i].sentiment
  {
    if cs == [] then [] else [cs[0].sentiment] + SentimentsOf(cs[1..])
  }

  /**
   * The loop over sentiments: the sentiments compared are exactly those of
   * `sentiments` whose long and short samples are both non-empty, in their
   * order, and each comparison carries that sentiment's two PnL samples.
   */
  function DirectionComparisons(ls: seq<Trade>, sentiments: seq<string>): (cs: seq<Comparison>)
    ensures SentimentsOf(cs) == Filter(BothSidesIn(ls), sentiments)
    ensures forall i :: 0 <= i < |cs| ==>
      cs[i].longPnl == Pnls(SideRows(ls, cs[i].sentiment, Long)) && |cs[i].longPnl| > 0 &&
      cs[i].shortPnl == Pnls(SideRows(ls, cs[i].sentiment, Short)) && |cs[i].shortPnl| > 0
  {
    if sentiments == [] then []
    else
      var s := sentiments[0];
      var rest := DirectionComparisons(ls, sentiments[1..]);
      if BothSides(ls, s) then
        var cs := [Comparison(s, Pnls(SideRows(ls, s, Long)), Pnls(SideRows(ls, s, Short)))] + rest;
        assert cs[1..] == rest;
        cs
      else rest
  }

  /** All comparisons H3 runs, in the fixed sentiment order. */
  function H3Comparisons(df: seq<Trade>): (cs: seq<Comparison>)
    ensures SentimentsOf(cs) == Filter(BothSidesIn(LongShortRows(df)), SentimentOrder)
    ensures forall i :: 0 <= i < |cs| ==> |cs[i].longPnl| > 0 && |cs[i].shortPnl| > 0
  {
    DirectionComparisons(LongShortRows(df), SentimentOrder)
  }

  /**
   * A listed sentiment is compared exactly when both its long and short
   * samples are non-empty; for H3 the list is the fixed five-level order.
   */
  lemma {:induction false} SkipRule(ls: seq<Trade>, sentiments: seq<string>, sentiment: string)
    requires sentiment in sentiments
    ensures sentiment in SentimentsOf(DirectionComparisons(ls, sentiments)) <==> BothSides(ls, sentiment)
  {
    FilterMember(BothSidesIn(ls), sentiments, sentiment);
  }

  /** For each of the five sentiments, H3 runs the comparison exactly when both samples are non-empty. */
  lemma {:induction false} H3SkipRule(df: seq<Trade>, sentiment: string)
    requires sentiment in SentimentOrder
    ensures sentiment in SentimentsOf(H3Comparisons(df)) <==> BothSides(LongShortRows(df), sentiment)
  {
    SkipRule(LongShortRows(df), SentimentOrder, sentiment);
  }

  // ----- H4: size against PnL -----

  /** `closed_trades[['Size.USD', 'Closed.PnL']].dropna()`: the rows that have a size, as (size, PnL) pairs. */
  function SizePnlPairs(closed: seq<Trade>): (pairs: seq<(real, real)>)
    ensures |pairs| == |Filter(HasSize, closed)|
    ensures forall i :: 0 <= i < |pairs| ==>
      pairs[i] == (Filter(HasSize, closed)[i].sizeUsd.value, Filter(HasSize, closed)[i].closedPnl)
  {
    if closed == [] then []
    else
      match closed[0].sizeUsd
      case None => SizePnlPairs(closed[1..])
      case Some(size) => [(size, closed[0].closedPnl)] + SizePnlPairs(closed[1..])
  }
}
