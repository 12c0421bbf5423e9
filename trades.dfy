/**
 * The merged trade/sentiment record and the per-row derived attributes the
 * analysis script attaches to it: the position type and the win flag.
 */
module Trades {
  import opened Wrappers

  /** The five levels of the daily sentiment index, in the fixed order the script iterates. */
  const ExtremeFear: string := "Extreme Fear"
  const Fear: string := "Fear"
  const Neutral: string := "Neutral"
  const Greed: string := "Greed"
  const ExtremeGreed: string := "Extreme Greed"
  const SentimentOrder: seq<string> := [ExtremeFear, Fear, Neutral, Greed, ExtremeGreed]

  /**
   * One row of the merged table. `date` is the trade's calendar day as a day
   * number; `classification` is the sentiment label, None where the left join
   * found no sentiment reading; money amounts are exact reals.
   */
  datatype Trade = Trade(
    date: int,
    classification: Option<string>,
    direction: string,
    closedPnl: real,
    sizeUsd: Option<real>)

  datatype PositionType = Long | Short | Other

  const LongDirections: seq<string> := ["Open Long", "Close Long", "Buy"]
  const ShortDirections: seq<string> := ["Open Short", "Close Short", "Sell"]

  /** The position type of a Direction string; total, with three exclusive outcomes. */
  function PositionTypeOf(direction: string): (p: PositionType)
    ensures p == Long <==> direction == "Open Long" || direction == "Close Long" || direction == "Buy"
    ensures p == Short <==> direction == "Open Short" || direction == "Close Short" || direction == "Sell"
  {
    if direction in LongDirections then Long
    else if direction in ShortDirections then Short
    else Other
  }

  /** The win flag: 1 for a profitable trade, 0 otherwise. */
  function IsWin(t: Trade): (w: nat)
    ensures w <= 1
    ensures w == 1 <==> t.closedPnl > 0.0
  {
    if t.closedPnl > 0.0 then 1 else 0
  }

  // Row masks used by the boolean-mask filters of the script.

  predicate IsLabelled(t: Trade) { t.classification.Some? }

  predicate IsClosed(t: Trade) { t.closedPnl != 0.0 }

  predicate HasLabel(t: Trade, sentiment: string) { t.classification == Some(sentiment) }

  predicate IsWinning(t: Trade) { IsWin(t) == 1 }

  predicate IsLosing(t: Trade) { IsWin(t) == 0 }

  predicate IsLongOrShort(t: Trade) { PositionTypeOf(t.direction) != Other }

  predicate HasSize(t: Trade) { t.sizeUsd.Some? }

  /**
   * The number of winning rows, the sum of the win flag; it reaches the row
   * count exactly when every row won and is 0 exactly when none did.
   */
  function WinCount(rows: seq<Trade>): (n: nat)
    ensures n <= |rows|
    ensures n == |rows| <==> forall i :: 0 <= i < |rows| ==> rows[i].closedPnl > 0.0
    ensures n == 0 <==> forall i :: 0 <= i < |rows| ==> rows[i].closedPnl <= 0.0
  {
    if rows == [] then 0 else IsWin(rows[0]) + WinCount(rows[1..])
  }

  /** The Closed.PnL column of a table. */
  function Pnls(rows: seq<Trade>): (r: seq<real>)
    ensures |r| == |rows|
    ensures forall i :: 0 <= i < |rows| ==> r[i] == rows[i].closedPnl
  {
    if rows == [] then [] else [rows[0].closedPnl] + Pnls(rows[1..])
  }

  function Sum(xs: seq<real>): real
  {
    if xs == [] then 0.0 else xs[0] + Sum(xs[1..])
  }

  lemma {:induction false} SumConcat(xs: seq<real>, ys: seq<real>)
    ensures Sum(xs + ys) == Sum(xs) + Sum(ys)
  {
    if xs == [] {
      assert xs + ys == ys;
    } else {
      assert (xs + ys)[1..] == xs[1..] + ys;
      SumConcat(xs[1..], ys);
    }
  }

  lemma {:induction false} PnlsConcat(a: seq<Trade>, b: seq<Trade>)
    ensures Pnls(a + b) == Pnls(a) + Pnls(b)
  {
    // both sides agree element by element (Pnls' own contract)
  }

  /** The total PnL of a table does not depend on the order of its rows. */
  lemma {:induction false} SumPnlsPermutation(a: seq<Trade>, b: seq<Trade>)
    requires multiset(a) == multiset(b)
    ensures Sum(Pnls(a)) == Sum(Pnls(b))
    decreases |a|
  {
    if a == [] {
      assert |b| == |multiset(b)| == 0;
    } else {
      assert a[0] in multiset(b);
      var k :| 0 <= k < |b| && b[k] == a[0];
      var rest := b[..k] + b[k + 1..];
      assert b == b[..k] + [b[k]] + b[k + 1..];
      assert a == [a[0]] + a[1..];
      calc {
        multiset(a[1..]);
        multiset(a) - multiset{a[0]};
        multiset(b) - multiset{b[k]};
        multiset(b[..k]) + multiset{b[k]} + multiset(b[k + 1..]) - multiset{b[k]};
        multiset(rest);
      }
      SumPnlsPermutation(a[1..], rest);
      PnlsConcat(b[..k] + [b[k]], b[k + 1..]);
      PnlsConcat(b[..k], [b[k]]);
      PnlsConcat(b[..k], b[k + 1..]);
      SumConcat(Pnls(b[..k]) + Pnls([b[k]]), Pnls(b[k + 1..]));
      SumConcat(Pnls(b[..k]), Pnls([b[k]]));
      SumConcat(Pnls(b[..k]), Pnls(b[k + 1..]));
      assert Sum(Pnls([b[k]])) == b[k].closedPnl;
    }
  }
}
