# Revolut capital-gains calculator: weighted-average cost-basis replay

This project models the core of `revolut_calculator.py`, a script that reads a
Revolut trading export and reports the realized profit of every sale in a
tax year. The core has three functions.

- `get_buy_data` replays the ledger rows of one symbol that come before a
  given index, keeping the running triple (average buy price, held quantity,
  cost pool). Only BUY, SELL, SSO and SSP rows take part. BUY and SSP add
  their quantity and amount and re-average. SELL adds its negative quantity,
  re-prices the pool at the unchanged average, and drops the average to zero
  once the pool is zero. SSO passes the filter and does nothing.
- `get_sell_profit` applies the profit rule to one sale. A partial sale
  (held quantity above the sold quantity) earns its proceeds less the sold
  quantity at pool / quantity. Any other sale earns its proceeds plus the
  whole (negative) pool.
- `get_pre_and_post_quantities` returns the held quantity before the sale
  and that quantity plus the sale's quantity.

The export's signs are kept as they are: BUY amounts are negative, SELL
quantities negative and SELL amounts positive. Quantities and amounts are
Dafny `real`s. The ledger is a `seq<Row>`, and a row's position stands for
its data-frame index label. Dropping empty rows can leave gaps in the labels
but keeps their order, so "label below `at_index`" becomes "position below
`atIndex`".

Layout:

- `ledger.dfy` (module `Ledger`): rows, activities and the row selection.
- `replay.dfy` (module `Replay`): the fold as a specification function
  (`Step`, `Fold`, `BuyDataBefore`), the imperative `GetBuyData` proved equal
  to it, and the cost-basis lemmas.
- `sale_evaluator.dfy` (module `SaleEvaluator`): `SellProfit`,
  `PrePostQuantities` and the lemmas that tie them to the replay.
- `scenarios.dfy` (module `Scenarios`): worked ledgers.

The two evaluators are functions of the ledger and an index. Calling them
twice with the same arguments therefore gives the same result.

Facts about the code that the model keeps:

- The partial-sale test is the strict `buy_quantity > -sell_quantity`, with
  no tolerance.
- Sale quantities are negative, and `after` is `before + quantity`.
- The full-sale profit is `amount + pool`; the pool is negative, so this is
  the proceeds less the whole cost.
- SSP is handled as a purchase and SSO is admitted by the filter but ignored.
- A sale with no history earns its whole proceeds, and an oversell leaves a
  negative `after`.
- The partial branch recomputes the average as pool / held quantity instead
  of using the replayed average.
- Both evaluators read the replayed state through the same function,
  `StateBefore`, so `before` is by construction the held quantity the profit
  rule sees; `AfterIsNextReplay` and `PartialSaleIffSharesRemain` state how
  `after` relates to the replay and to the profit rule.

## Model

| member | source | states |
|---|---|---|
| `Ledger.Filter` | revolut_calculator.py:11-13 | a row is kept exactly when it is in the input and has the symbol and an admitted activity; the selection never grows |
| `Ledger.FilterSingleton` | revolut_calculator.py:11-13 | a single row is kept exactly when it has the symbol and an admitted activity, and then once |
| `Ledger.FilterAppend` | revolut_calculator.py:11-13 | the selection of a concatenation is the selection of the first part followed by that of the second, so order and multiplicity are those of the ledger |
| `Ledger.FilterNoneRelevant` | revolut_calculator.py:11-13 | with no row of the symbol and an admitted activity the selection is empty |
| `Ledger.SelectedIgnoresOtherRows` | revolut_calculator.py:11-13 | replacing a row at or after the index, or a row that is not selected by another row that is not selected, leaves the selection unchanged |
| `Ledger.SelectedNext` | revolut_calculator.py:11-13 | moving the index one row further appends that row to the selection exactly when it is relevant |
| `Replay.SelectRows` | revolut_calculator.py:11-13 | the selection loop returns the relevant rows strictly before the index |
| `Replay.ReplayRow` | revolut_calculator.py:19-30 | one pass of the loop body updates the accumulators as the replay step does |
| `Replay.GetBuyData` | revolut_calculator.py:10-32 | the filter-then-fold loop, starting from (0, 0, 0), returns the replayed state of the symbol before the index |
| `Replay.AcquisitionStep` | revolut_calculator.py:20-25 | BUY/SSP adds quantity and amount; with a nonzero position the new average prices the whole pool, with a zero position the average is unchanged |
| `Replay.SellStep` | revolut_calculator.py:26-30 | SELL adds its quantity and re-prices the pool at the old average; the average becomes zero exactly when the new pool is zero, i.e. when the average was zero or the position is closed |
| `Replay.ClosingSaleResets` | revolut_calculator.py:26-30 | a sale that closes the position returns the state to (0, 0, 0) |
| `Replay.SsoStepIsNoOp` | revolut_calculator.py:12-30 | an SSO row is admitted but leaves the state as it was |
| `Replay.SsoRowChangesNothing` | revolut_calculator.py:12-30 | removing an SSO row from the replayed rows does not change the result |
| `Replay.FoldAppend` | revolut_calculator.py:18-30 | replaying two runs of rows is replaying the second from where the first ended |
| `Replay.FoldNext` | revolut_calculator.py:18-30 | replaying one more row applies one more step |
| `Replay.StepKeepsInvariant` | revolut_calculator.py:20-30 | every step keeps "pool = average × quantity whenever quantity is nonzero" |
| `Replay.FoldKeepsInvariant` | revolut_calculator.py:15-30 | every replay from an invariant state ends in an invariant state |
| `Replay.BuyDataInvariant` | revolut_calculator.py:10-32 | what get_buy_data returns always satisfies the cost-basis invariant |
| `Replay.WeightedAverage` | revolut_calculator.py:20-25 | over a run of purchases the quantity and pool are the totals, and the average is total amount / total quantity when that total is nonzero |
| `Replay.NoRelevantRowsGivesStart` | revolut_calculator.py:11-17 | with no relevant row before the index the result is (0, 0, 0) |
| `Replay.OtherRowsDoNotMatter` | revolut_calculator.py:11-13 | rows of other symbols, of other activities, or at/after the index do not affect the replay |
| `Replay.ReplayNext` | revolut_calculator.py:11-30 | the replay one index further is one step more for a relevant row and unchanged otherwise |
| `Replay.ReplayRestartsAfterClosingSale` | revolut_calculator.py:26-30 | after a sale that closes the position, the replay depends only on the later rows |
| `SaleEvaluator.Profit` | revolut_calculator.py:43-48 | the profit rule fails only by dividing by a zero held quantity, which needs a positive sale quantity |
| `SaleEvaluator.SellProfit` | revolut_calculator.py:35-48 | a missing index is reported exactly when the index is past the ledger; a division by zero only for a row of positive quantity |
| `SaleEvaluator.PrePostQuantities` | revolut_calculator.py:51-61 | the only error is the missing index, reported exactly when the index is past the ledger |
| `SaleEvaluator.ProfitAtAverage` | revolut_calculator.py:44-48 | under the invariant, a partial sale earns proceeds less the sold quantity at the average buy price; any other sale earns proceeds plus the pool |
| `SaleEvaluator.ProfitDefinedForSales` | revolut_calculator.py:44-46 | with a sale quantity of at most zero the partial branch's divisor is strictly positive and the rule never fails |
| `SaleEvaluator.ProfitIsReleasedCost` | revolut_calculator.py:44-48 | for a SELL that does not oversell, the profit is proceeds + pool before − pool after the sale's replay step, in both branches |
| `SaleEvaluator.BranchesAgreeWhenClosing` | revolut_calculator.py:44-48 | on an exact close the full-sale branch equals what the partial formula gives |
| `SaleEvaluator.SellProfitRule` | revolut_calculator.py:35-48 | get_sell_profit over the ledger: full branch = proceeds + pool, partial branch = proceeds − sold quantity × replayed average |
| `SaleEvaluator.SaleProfitDefined` | revolut_calculator.py:41-46 | a row with a sale quantity of at most zero always has a defined profit, and in the partial case a positive held quantity |
| `SaleEvaluator.ProfitIsProceedsLessReleasedCost` | revolut_calculator.py:35-48 | for a SELL row that does not oversell, the profit equals proceeds + pool before the row − pool of the replay that includes the row |
| `SaleEvaluator.ReplayIncludesRow` | revolut_calculator.py:11-30 | a SELL row is admitted, so the replay one index further is that row's step applied to the state before it |
| `SaleEvaluator.AfterIsNextReplay` | revolut_calculator.py:56-61 | for a SELL row, `after` is the held quantity of the replay one index further |
| `SaleEvaluator.SaleLowersHolding` | revolut_calculator.py:57-61 | a negative sale quantity gives `after < before` |
| `SaleEvaluator.PartialSaleIffSharesRemain` | revolut_calculator.py:44-61 | the profit rule takes the partial branch exactly when `after > 0` |
| `Scenarios.PartialSaleScenario` | revolut_calculator.py:41-61 | buy 10 for −100, sell 4 for 60: profit 20, holdings 10 → 6 |
| `Scenarios.FullSaleScenario` | revolut_calculator.py:41-61 | buy 10 for −100, sell 10 for 150: profit 50, holdings 10 → 0 |
| `Scenarios.WeightedAverageScenario` | revolut_calculator.py:20-61 | two buys average to 20 a share; selling 5 for 150 earns 50, holdings 20 → 15 |
| `Scenarios.SplitScenario` | revolut_calculator.py:20-61 | an SSP of 10 shares for 0 halves the average; selling all 20 for 120 earns 20 |
| `Scenarios.MixedLedgerReplay` | revolut_calculator.py:11-30 | with another symbol, a cash deposit and an SSO row of 5 shares before the sale, the replay holds only the buy: 10 shares, pool −100, average −10 |
| `Scenarios.OtherRowsScenario` | revolut_calculator.py:11-61 | another symbol, a cash deposit and an SSO row of 5 shares leave the partial-sale result unchanged (profit 20, holdings 10 → 6) |
| `Scenarios.DegenerateScenario` | revolut_calculator.py:35-61 | a sale with no history earns its proceeds; an index past the ledger is reported missing |

## Left out

- Display options (revolut_calculator.py:4-7): process-wide formatting state with no effect on the computation.
- Argument parsing and exit codes (revolut_calculator.py:65-69): input plumbing.
- Reading the spreadsheet and dropping empty rows (revolut_calculator.py:72-73): I/O. The model takes the already-read ledger.
- Truncating the symbol to its first word (revolut_calculator.py:74): glue. Rows carry the truncated symbol.
- The check for unsupported activity types and the abort (revolut_calculator.py:77-83): glue. `Activity.Other` holds any other label.
- Selecting the SELL rows of the year and collecting the results (revolut_calculator.py:85-95): orchestration over the two evaluators, outside the core.
- Writing `results.xlsx` and printing (revolut_calculator.py:98-101): output.
- Floating point: values are exact reals. The "negative zero" guard (revolut_calculator.py:58) is modelled as the comparison with zero, which is the identity over the reals. NumPy's inf or nan results and rounding drift are not modelled.
- SellProfit: a division by zero is modelled as the `DivisionByZero` error. NumPy floats would give inf or nan there, and only the initial Python integers would raise. That branch needs a positive sale quantity.
- Data-frame index labels are modelled as sequence positions, so duplicate labels are not modelled.
