# Trade classification and counting of the sentiment analysis script

This project models the table logic of `05_statistical_analysis.py`, the
script that asks whether the daily market-sentiment index (Extreme Fear, Fear,
Neutral, Greed, Extreme Greed) is related to traders' results. Each row of the
merged table is a `Trades.Trade`. It holds a day number, an optional sentiment
label, the Direction string, the closed PnL and an optional USD size. The
model covers:

- the boolean-mask filters: labelled rows, closed trades (PnL ≠ 0), the
  long/short subset and the rows that have a size;
- the five sentiment groups of closed PnL, which are the input of the k-sample
  test (H1);
- the win flag and the sentiment × win contingency table (H2);
- the Direction → Long/Short/Other mapping, the per-sentiment long and short
  samples, and the rule that skips a sentiment when either sample is empty (H3);
- the size/PnL pairs of the rank correlation (H4);
- the two chart series that are computed: the win rate per sentiment after the
  reindex, and the cumulative PnL per sentiment in date order.

Money is modelled as exact `real`. A mask filter is the generic
`Masks.Filter`. Its lemmas say that a filter keeps order (`Subseq`), keeps
exactly the rows that satisfy the mask (`FilterCount`), and that two filters
applied in turn equal one filter on the conjunction (`FilterFusion`).

Files: `wrappers.dfy` (Option), `trades.dfy` (record, position type, win
flag, sums), `masks.dfy` (mask filtering), `loading.dfy` (lines 19, 29 and 33 of
the script: label, closed and per-label filters), `hypotheses.dfy` (H1–H4 inputs),
`charts.dfy` (panels 2 and 6).

Three behaviours of the script that the model keeps:

- The five group sizes add up to the number of closed trades whose label is
  one of the five levels. This equals the total closed-trade count only when
  no other label occurs, because the list comprehension (lines 32-35) ignores
  other labels.
- The contingency table (line 59) has a row for every label that occurs, not
  only for the five levels.
- The cumulative series of panel 6 (lines 190-191) runs over all labelled rows
  of a sentiment, zero-PnL rows included, not only over the closed trades.

## Model

| member | source | states |
|---|---|---|
| Trades.PositionTypeOf | 05_statistical_analysis.py:78-81 | Long exactly for "Open Long", "Close Long", "Buy"; Short exactly for "Open Short", "Close Short", "Sell"; Other for every other string (total, three exclusive outcomes) |
| Trades.IsWin | 05_statistical_analysis.py:56 | the win flag is 0 or 1, and 1 exactly when PnL > 0 |
| Trades.WinCount | 05_statistical_analysis.py:136 | the number of rows with PnL > 0 is at most the row count, equals it exactly when every row won, and is 0 exactly when none did |
| Trades.SumPnlsPermutation | 05_statistical_analysis.py:190-191 | a table's total PnL does not depend on the order of its rows |
| Masks.Filter | 05_statistical_analysis.py:19 | a mask filter keeps only rows satisfying the mask, each a row of the input, in the input's order |
| Masks.FilterCount | 05_statistical_analysis.py:19 | a row satisfying the mask is kept as often as it occurs; any other row never |
| Masks.FilterMember | 05_statistical_analysis.py:19 | a row of the input is selected iff it satisfies the mask |
| Masks.FilterFusion | 05_statistical_analysis.py:29 | filtering by one mask then another equals filtering once by the conjunction |
| Loading.LabelledRows | 05_statistical_analysis.py:19 | every row of `df` has a non-null label, in the merged table's order |
| Loading.ClosedTrades | 05_statistical_analysis.py:29 | every closed trade has PnL ≠ 0, in `df`'s order |
| Loading.ClosedTradesExact | 05_statistical_analysis.py:19-29 | the closed trades are exactly the labelled rows with PnL ≠ 0 of the merged table, in order, each with its multiplicity |
| Loading.ClosedLossIsNegative | 05_statistical_analysis.py:56 | on a closed trade, is_win = 1 iff PnL > 0 and is_win = 0 iff PnL < 0 |
| Loading.RowsWithLabel | 05_statistical_analysis.py:33 | the slice of one label holds only rows with that label, in order |
| Loading.RowsWithLabelComplete | 05_statistical_analysis.py:33 | every row carrying the label is in that label's slice |
| Hypotheses.GroupsBy | 05_statistical_analysis.py:32-35 | one row group per label of the list, in list order, group i being label i's slice |
| Hypotheses.SentimentRows | 05_statistical_analysis.py:32-35 | five row groups in the fixed sentiment order, group i being the i-th sentiment's slice of the closed trades |
| Hypotheses.SentimentGroups | 05_statistical_analysis.py:32-35 | five PnL groups, Extreme Fear first, each as long as its label's slice of closed trades |
| Hypotheses.GroupsBySizes | 05_statistical_analysis.py:32-35 | for distinct labels, the group sizes add up to the number of rows whose label is one of them |
| Hypotheses.SentimentGroupsDisjoint | 05_statistical_analysis.py:32-35 | no closed trade lies in two of the five groups |
| Hypotheses.SentimentGroupsExact | 05_statistical_analysis.py:32-35 | group i is the PnL of exactly the closed trades labelled with the i-th sentiment |
| Hypotheses.SentimentGroupSizes | 05_statistical_analysis.py:32-35 | the five group sizes add up to the number of closed trades labelled with one of the five sentiments |
| Hypotheses.Crosstab | 05_statistical_analysis.py:59 | every row of the table has a positive total; its keys, cells and grand total are stated by CrosstabKeys, CrosstabCells and CrosstabTotal |
| Hypotheses.CrosstabKeys | 05_statistical_analysis.py:59 | the contingency table has a row exactly for the labels that occur |
| Hypotheses.CrosstabCells | 05_statistical_analysis.py:56-59 | cell (label, 1) counts that label's rows with PnL > 0, cell (label, 0) the rest of that label's rows; a missing row means the label has no rows |
| Hypotheses.ContingencyRows | 05_statistical_analysis.py:59 | each row of the table is non-empty, sums to its label's trade count, and its win column is that label's is_win sum |
| Hypotheses.CrosstabTotal | 05_statistical_analysis.py:59 | the table's grand total is the number of labelled rows counted |
| Hypotheses.ContingencyGrandTotal | 05_statistical_analysis.py:59 | on the pipeline's closed trades the grand total equals the number of closed trades |
| Hypotheses.LongShortRows | 05_statistical_analysis.py:83 | the long/short subset holds no Other row and no zero-PnL row, in `df`'s order |
| Hypotheses.LongShortRowsAreClosedTrades | 05_statistical_analysis.py:83 | the long/short subset is exactly the Long-or-Short part of the closed trades |
| Hypotheses.SideRows | 05_statistical_analysis.py:87-89 | one side's sample of one sentiment holds only rows of that label and that position type, and is no larger than the sentiment's slice; SidesPartitionSentiment states the partition |
| Hypotheses.SidesPartitionSentiment | 05_statistical_analysis.py:87-89 | within one sentiment the long and short samples partition that sentiment's slice of the subset |
| Hypotheses.DirectionComparisons | 05_statistical_analysis.py:86-92 | the sentiments compared are exactly those with both samples non-empty, in order, each with its long and short PnL samples |
| Hypotheses.SkipRule | 05_statistical_analysis.py:91 | a listed sentiment is compared iff both its long and short samples are non-empty |
| Hypotheses.H3SkipRule | 05_statistical_analysis.py:86-91 | each of the five sentiments is compared iff both its long and short samples are non-empty |
| Hypotheses.H3Comparisons | 05_statistical_analysis.py:86-91 | the sentiments H3 compares are the five levels in order, filtered by both samples being non-empty, and every comparison has two non-empty samples |
| Hypotheses.SizePnlPairs | 05_statistical_analysis.py:100 | the pairs are exactly (size, PnL) of the closed trades that have a size, in order |
| Charts.WinRate | 05_statistical_analysis.py:135-137 | no value exactly when the label has no closed trade (no division by zero); otherwise a value in [0, 100], 100 when every trade won, 0 when none did |
| Charts.WinRates | 05_statistical_analysis.py:135-137 | one entry per sentiment in the fixed order, entry i being the i-th sentiment's win rate; missing exactly for a sentiment without trades, each present value in [0, 100] |
| Charts.WinRateFromContingency | 05_statistical_analysis.py:135-137 | a label's win rate is its contingency win count over its row total, times 100 |
| Charts.InsertByDate | 05_statistical_analysis.py:190 | inserting into a date-sorted table keeps it sorted and adds exactly that row |
| Charts.SortByDate | 05_statistical_analysis.py:190 | the result is sorted by date and is a permutation of the input |
| Charts.CumSum | 05_statistical_analysis.py:191 | same length as the input; element i is the sum of the first i + 1 values |
| Charts.CumulativePnl | 05_statistical_analysis.py:190-191 | one point per labelled row of the sentiment; CumulativePnlShape and CumulativePnlTotal state the prefix sums and the final total |
| Charts.CumulativePnlShape | 05_statistical_analysis.py:190-191 | the series has one point per labelled row of the sentiment, and point i is the sum of the first i + 1 PnL values in date order |
| Charts.CumulativePnlTotal | 05_statistical_analysis.py:190-191 | the last point is the sentiment's total PnL, whatever order the sort leaves rows of equal date in |
| Charts.SumPnlsClosed | 05_statistical_analysis.py:29 | dropping zero-PnL rows does not change a PnL total |
| Charts.CumulativeEndsAtGroupTotal | 05_statistical_analysis.py:190-191 | the last point of a sentiment's cumulative series equals the total of that sentiment's H1 group |

## Left out

- The four hypothesis tests (Kruskal–Wallis, chi-square, Mann–Whitney U, Spearman, lines 38, 64, 92, 101) are foreign floating-point library calls. The model stops at their inputs, so the reported statistics, p-values and the 0.05 decisions are not modelled.
- The mean/median/std/count aggregation (line 48) and the per-sentiment, per-side mean PnL of panel 3 (line 151) use floating-point reductions.
- CSV reading and date parsing (lines 15–16) are I/O. A date is a day number in the model.
- The plots (lines 119–204): violin clipping, styling, the daily volume sums of panel 4 and the random 5000-row sample of panel 5 are presentation only, and the sample is nondeterministic.
- Console printing.
- `06_final_report_generator.py` is not part of this model. It writes static prose and computes nothing from the data.
- Floating point: PnL and size are exact reals, so float rounding in sums and in the win-rate division is not captured.
- Closed PnL is never missing in the model. A NaN PnL is not represented, so the dropna at line 100 filters on size only. In pandas a NaN PnL would pass the `!= 0` filter and count as a loss.
- Hypotheses.Crosstab: the table is a map from label to (losses, wins). pandas also sorts the row labels and omits an is_win column that no row falls into. The model keeps both counts, zero or not, and has no row order.
- Charts.SortByDate: pandas' default sort does not keep rows of equal date in any guaranteed order; the model inserts stably. Intermediate points of the cumulative series between rows of the same date may therefore differ; the last point provably does not (Charts.CumulativePnlTotal).
- The size bucket attribute of the merged record is not computed in this script and is not modelled.
