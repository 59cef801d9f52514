# Equity composition: a verified model of the portfolio aggregator

The program compares a blended portfolio of exchange-traded funds with a
benchmark. Each fund is uploaded as an exported holdings table and given an
allocation in percent.

The model has four parts:

- **`Percent`** models `clean_percentage`. It reads a weight cell written with a
  decimal comma (`"12,34"`) and falls back to 0 for a missing, empty or
  unparseable cell.
- **`Holdings`** models the row filter of `load_and_clean_data`: keep the equity
  rows (`Asset Class == "Azionario"`) whose cleaned weight is positive, in table
  order. It also models the per-label totals `groupby(column)['Ponderazione'].sum()`.
- **`Aggregation`** models `aggregate_portfolio_data`. The imperative loops are
  kept as methods over maps:
  - `AddHoldings` is the row loop.
  - `AddGroups` is the sector and area loops.
  - `AddFund` and `AggregatePortfolio` are the fund loop.

  Each method is proved against specification functions. `Contributions` is
  every allocation-weighted holding in fund order, then row order. `GroupTrack`
  is the per-fund grouped total, scaled and summed. The predicates `HoldingsOf`
  and `TrackOf` tie the maps to these functions.
- **`Comparison`** models the data side of the three charts:
  - the 30 largest benchmark holdings (`nlargest` with first-occurrence tie
    breaking), each with the portfolio's weight for the same ticker, or 0;
  - the sector and area comparisons: the union of both key sets, with
    `dict.get(key, 0)` on each side.

The holding weights, the sector and area totals and the keys of all three
maps do not depend on the order of the funds. The name, sector and area kept
for a ticker do: they come from its first occurrence (`EarlierFundWins`).

`Wrappers` holds the `Option` type. `None` stands for a missing cell, or for a
table that could not be loaded.

A table reaches the model already split into rows of strings. Weights are
exact reals, and every `x * weight / 100` is written as `Share(x, weight)`.

## Model

| member | source | states |
|---|---|---|
| Percent.CleanPercentage | streamlit_app.py:16-24 | a missing or empty cell is read as 0, and a non-zero result comes only from a present cell whose stripped, comma-to-point text is a decimal literal |
| Percent.ParseDecimal | streamlit_app.py:22 | every literal `float` accepts here has digit-only integer and fraction parts and at least one digit, and is negative exactly when the text starts with a minus |
| Percent.ParseSound | streamlit_app.py:22 | a text is accepted only when it is an optional sign, the integer digits and, if any, a point and the fraction digits; the value is negative exactly when the sign is a minus |
| Percent.ParseComplete | streamlit_app.py:22 | with `ParseSound`, an if-and-only-if: every well-formed literal written with the sign `""`, `"+"` or `"-"` and a point, or without a point when it has no fraction digits (`"5"`, `"-5"`), is read as itself |
| Percent.CleanSignedDecimal | streamlit_app.py:16-24 | a padded cell holding a well-formed literal with any of the three signs and a comma or a point, or with neither when it has no fraction digits, is read as the number it denotes (`"+5,5"` as 5.5, `"5"` as 5) |
| Percent.CommaDecimalRoundTrip | streamlit_app.py:16-24 | a decimal written with a comma, with any whitespace padding, is read as exactly the number it denotes |
| Percent.CleanDecimalComma | streamlit_app.py:20-22 | the cell `"12,34"` is read as 12.34 |
| Percent.CleanThousandsSeparator | streamlit_app.py:20-24 | the cell `"1,234,5"` becomes `"1.234.5"`, which `float` rejects, so it is read as 0 |
| Percent.SecondSeparatorRejected | streamlit_app.py:20-24 | any cell that still has two separators (comma or point) after stripping is read as 0 |
| Percent.CleanMissingOrGarbage | streamlit_app.py:18-24 | a missing cell, an empty cell and a non-numeric cell (`"n/a"`) are all read as 0 |
| Percent.CommaAndPointAgree | streamlit_app.py:20 | replacing commas by points beforehand does not change the value read from any cell |
| Percent.StripPadded | streamlit_app.py:20 | `strip()` removes exactly the whitespace padding around text that neither starts nor ends with whitespace |
| Percent.ParsePointText | streamlit_app.py:22 | parsing a decimal literal printed with a point gives back the same sign, integer digits and fraction digits |
| Holdings.EquityHoldings | streamlit_app.py:33-36 | the filtered table has at most as many rows as the file, and every kept weight is positive |
| Holdings.EquityHoldingsSpec | streamlit_app.py:33-36 | the filter is sound, complete and order-preserving: the k-th kept holding is the cleaned k-th row that is equity with positive weight, kept positions strictly increase, and no such row is dropped |
| Holdings.LoadAndClean | streamlit_app.py:26-41 | a table yields holdings exactly when it loads (`None` otherwise), and every kept weight is positive |
| Holdings.DistinctLabels | streamlit_app.py:69 | the group keys: each label present occurs exactly once, and no other label occurs |
| Holdings.GroupTotals | streamlit_app.py:69 | one group per label present, keys distinct, and each group's total is the sum of the weights carrying that label |
| Holdings.ToMap | streamlit_app.py:121 | `to_dict()` of the grouped totals (also at 149) has exactly the group keys |
| Holdings.ToMapLookup | streamlit_app.py:121 | with distinct group keys, each key of the dictionary maps to its group's total |
| Holdings.GroupLookup | streamlit_app.py:69-72 | looking a label up in the grouped totals with default 0 gives the label's weight sum, present or not |
| Holdings.GroupTotalsConserveMass | streamlit_app.py:69 | the grouped totals of a table add up to its total weight |
| Aggregation.Zip | streamlit_app.py:49 | the funds are the file/weight pairs up to the shorter of the two lists |
| Aggregation.Record | streamlit_app.py:58-66 | one row adds its ticker to the map and leaves every other ticker's entry unchanged; a known ticker keeps its name, sector and area and gains the row's weight, and a new ticker gets the row's name, weight, sector and area |
| Aggregation.RecordStep | streamlit_app.py:58-66 | one row update keeps `HoldingsOf`: a new ticker gets the row's name, sector and area, and a known ticker only accumulates weight |
| Aggregation.AddHoldings | streamlit_app.py:53-66 | after the row loop, the holdings map is `HoldingsOf` the earlier contributions followed by this fund's rows scaled by the allocation |
| Aggregation.ScaleGroupsLookup | streamlit_app.py:70-71 | scaling each group total by the allocation scales every default-0 lookup alike, and keeps the same keys |
| Aggregation.AddGroups | streamlit_app.py:70-72 | after the group loop, the keys are those of the accumulator plus the group keys, and each value is `get(key, 0)` plus the key's group total times allocation / 100 |
| Aggregation.TrackStep | streamlit_app.py:68-78 | adding a loaded fund's scaled group totals to a map that tracks the earlier funds gives the map that tracks them plus this fund |
| Aggregation.FailedStep | streamlit_app.py:50-51 | a fund whose table does not load leaves all three maps tracking the longer fund list |
| Aggregation.AddFund | streamlit_app.py:50-78 | one pass of the fund loop keeps all three maps exact for the funds seen so far |
| Aggregation.AggregatePortfolio | streamlit_app.py:43-80 | the holdings map is `HoldingsOf` every contribution of `zip(files, weights)`, and the sector and area maps are `TrackOf` the per-fund group totals |
| Aggregation.ScaledLabelSum | streamlit_app.py:56 | scaling a table's weights by an allocation scales each label total by the same factor |
| Aggregation.TrackAgreement | streamlit_app.py:53-78 | the per-fund group track equals the sum over all contributions with that label, so the sector and area maps agree with the per-row contributions |
| Aggregation.FirstOfIsFirst | streamlit_app.py:58-66 | the entry kept for a ticker is its first occurrence, and a ticker has an entry exactly when it occurs |
| Aggregation.PortfolioHolding | streamlit_app.py:53-66 | the holdings map has exactly the tickers of the loaded funds; each weight is the sum over funds of allocation × weight / 100; name, sector and area come from the first occurrence |
| Aggregation.EarlierFundWins | streamlit_app.py:49-66 | once a ticker occurs in the earlier funds, later funds never change its name, sector or area |
| Aggregation.FailedFundIgnored | streamlit_app.py:50-51 | a fund whose table fails to load contributes nothing, wherever it stands in the list |
| Aggregation.HasLabelContributions | streamlit_app.py:53-78 | a ticker, sector or area occurs among the contributions exactly when some fund's own weighted rows carry it |
| Aggregation.KeysPermutation | streamlit_app.py:49-78 | any permutation of the funds gives the same keys in the holdings, sector and area maps |
| Aggregation.FundOrderIrrelevant | streamlit_app.py:49-78 | any permutation of the funds gives the same per-ticker weights, the same sector and area totals, and the same keys in all three maps |
| Aggregation.ContributionsMass | streamlit_app.py:56 | the contributions add up to the sum over loaded funds of (table total × allocation / 100) |
| Aggregation.PortfolioMass | streamlit_app.py:43-80 | mass conservation: the holdings weights, the sector totals and the area totals each sum, one key at a time, to the sum over loaded funds of (table total × allocation / 100); the holdings map has exactly one key per distinct ticker |
| Comparison.Insert | streamlit_app.py:85 | inserting a later row into a ranked list keeps it ranked, and adds exactly that row |
| Comparison.Rank | streamlit_app.py:85 | all rows are ranked by descending weight, ties in table order, each row exactly once |
| Comparison.NLargest | streamlit_app.py:85 | `nlargest(n)` selects min(n, rows) row positions, each a position of the table |
| Comparison.NLargestSpec | streamlit_app.py:85 | `nlargest(30)` keeps min(30, rows) distinct rows in rank order; every row left out weighs at most as much as each kept row, and on a tie comes later |
| Comparison.TopHoldings | streamlit_app.py:82-103 | for each selected row in rank order: its name, its benchmark weight, and the portfolio weight of its ticker (0 when absent); the three lists have min(30, rows) elements and the benchmark weights never increase |
| Comparison.PortfolioWeight | streamlit_app.py:96-99 | the portfolio weight of a ticker is its accumulated entry's weight when the ticker is in the map, and 0 otherwise |
| Comparison.PortfolioWeightTrack | streamlit_app.py:96-99 | the portfolio bar of a ticker is the sum over funds of allocation × weight / 100, and 0 for a ticker no fund holds |
| Comparison.Compare | streamlit_app.py:118-128 | the sector (and, at 146-156, area) comparison has every key of the benchmark groups or of the portfolio map, once; the benchmark side is the key's weight sum and the portfolio side is `get(key, 0)` |
| Comparison.CompareTrack | streamlit_app.py:124-128 | every portfolio bar is the allocation-weighted group total over the funds, and 0 for a key only the benchmark has |

## Left out

- The Streamlit user interface, the file uploaders and the plotly figures: the charts' layout and titles, and the summary counts of holdings, are presentation, outside the modelled core.
- `pd.read_csv(..., skiprows=2)`: reading the file and finding the columns are not modelled. Only a file that cannot be read, or that lacks the `Ponderazione (%)` or `Asset Class` column (streamlit_app.py:33 and 36), reaches the model as `None`, as the `except` at 39-41 returns.
- Missing ticker, name, sector or area columns: a `Row` always has all six fields, so the model cannot express the uncaught `KeyError` that such a file raises at streamlit_app.py:54, 55, 64, 65, 69 or 75, which ends the run.
- Pandas type inference: when a whole weight column has no commas, pandas reads it as floats, and `str(value)` then prints Python's float text. The model always receives the cell's text.
- NaN: missing cells are `None` for the weight only. NaN tickers, sectors or areas, and `groupby` dropping NaN keys, are not modelled.
- Percent.CleanPercentage: accepts only the decimal subset of `float`'s syntax (sign, digits, at most one point). Exponents, `inf`/`nan`, underscores between digits and non-ASCII digits are read as 0 here, whereas `float` accepts them.
- Percent.Strip: removes only the whitespace below code point 128. `str.strip()` also removes Unicode whitespace such as U+00A0 and U+2003.
- Floating point: weights are exact reals. Rounding in `w * a / 100` and in sums is not modelled, so the fund-order and mass-conservation lemmas hold exactly here and only up to rounding in the program.
- Order of dictionary keys and of `list(set(...))`: the maps and the comparison are modelled as maps, so insertion order, pandas' sorted group order and the order of the chart's categories are not captured. The grouped totals are kept in first-appearance order.
- Comparison.NLargest: breaks weight ties by table order. pandas promises that order only when it selects from more than 30 rows; with at most 30 rows `nlargest` falls back to `sort_values(ascending=False).head(n)`, whose default sort does not guarantee the order of ties.
- The fund loop's `enumerate` index is unused in the source and is not modelled.
- Allocation range: allocations are taken as given reals. The interface's 0-100 range is not enforced, and nothing in the aggregation depends on it.

