/**
  The two evaluators of revolut_calculator.py that run the replay for one
  sale row: the realized profit (get_sell_profit) and the held quantity
  before and after the sale (get_pre_and_post_quantities).
*/
module SaleEvaluator {
  import opened Ledger
  import opened Replay

  /** How an evaluation can fail: the index is not a row of the ledger (a
      KeyError in the source), or the partial-sale branch divides by a zero
      held quantity. */
  datatype Error = MissingIndex | DivisionByZero

  datatype Outcome<T> = Ok(value: T) | Err(error: Error)

  /** Quantity held before the sale and after it. */
  datatype Holdings = Holdings(before: real, after: real)

  /** The replayed state the evaluators see for the row at `atIndex`: the
      replay of that row's symbol up to, and excluding, the row. */
  function StateBefore(data: seq<Row>, atIndex: nat): BuyData
    requires atIndex < |data|
  {
    BuyDataBefore(data, data[atIndex].symbol, atIndex)
  }

  /** The sale leaves shares: buy_quantity > -sell_quantity. */
  predicate PartialSale(data: seq<Row>, atIndex: nat) {
    atIndex < |data| && StateBefore(data, atIndex).buyQuantity > -data[atIndex].quantity
  }

  /** The profit rule of get_sell_profit for a sale row `sell` against the
      replayed state `b`. A partial sale is charged the sold quantity at the
      average recomputed as pool / held quantity; any other sale is charged
      the whole (negative) pool. */
  function Profit(b: BuyData, sell: Row): (r: Outcome<real>)
    ensures r.Err? ==> r.error == DivisionByZero && b.buyQuantity == 0.0 && sell.quantity > 0.0
  {
    if b.buyQuantity > -sell.quantity then
      if b.buyQuantity == 0.0 then Err(DivisionByZero)
      else Ok(sell.amount - sell.quantity * (b.buyAmount / b.buyQuantity))
    else
      Ok(sell.amount + b.buyAmount)
  }

  /** get_sell_profit: look the row up, replay its symbol up to it and apply
      the profit rule. */
  function SellProfit(data: seq<Row>, atIndex: nat): (r: Outcome<real>)
    ensures r == Err(MissingIndex) <==> atIndex >= |data|
    ensures r == Err(DivisionByZero) ==> atIndex < |data| && data[atIndex].quantity > 0.0
  {
    if atIndex >= |data| then Err(MissingIndex)
    else Profit(StateBefore(data, atIndex), data[atIndex])
  }

  /** get_pre_and_post_quantities: look the row up, replay its symbol up to
      it, and add the sale's quantity to the held quantity. The sum is
      compared with zero to return an exact zero; over the reals that
      comparison changes nothing. */
  function PrePostQuantities(data: seq<Row>, atIndex: nat): (r: Outcome<Holdings>)
    ensures r.Err? <==> atIndex >= |data|
    ensures r.Err? ==> r.error == MissingIndex
  {
    if atIndex >= |data| then Err(MissingIndex)
    else
      var before := StateBefore(data, atIndex).buyQuantity;
      var after := before + data[atIndex].quantity;
      if after == 0.0 then Ok(Holdings(before, 0.0))
      else Ok(Holdings(before, after))
  }

  /** The cost of `quantity` shares at the price `avg`. */
  function CostAt(avg: real, quantity: real): real {
    quantity * avg
  }

  /** The profit rule priced at the average buy price: under the cost-basis
      invariant pool / quantity is that average, so a partial sale earns its
      proceeds less the sold quantity at the average. */
  lemma ProfitAtAverage(b: BuyData, sell: Row)
    requires CostBasisInvariant(b)
    ensures Profit(b, sell)
            == if b.buyQuantity <= -sell.quantity then Ok(sell.amount + b.buyAmount)
               else if b.buyQuantity == 0.0 then Err(DivisionByZero)
               else Ok(sell.amount - CostAt(b.avgBuyPrice, sell.quantity))
  {
    if b.buyQuantity != 0.0 {
      assert b.buyAmount / b.buyQuantity == b.avgBuyPrice;
    }
  }

  /** With the export's sign for sales (a quantity of at most zero) the
      partial branch has a strictly positive divisor, so the rule never
      fails. */
  lemma ProfitDefinedForSales(b: BuyData, sell: Row)
    requires sell.quantity <= 0.0
    ensures b.buyQuantity > -sell.quantity ==> b.buyQuantity > 0.0
    ensures Profit(b, sell).Ok?
  {
  }

  /** For a SELL that does not oversell, the profit is the proceeds less the
      cost that leaves the pool: sale amount + pool before - pool after the
      replay step of the sale. Both branches of the rule agree with this. */
  lemma ProfitIsReleasedCost(b: BuyData, sell: Row)
    requires CostBasisInvariant(b)
    requires sell.activity == Sell && sell.quantity <= 0.0
    requires b.buyQuantity + sell.quantity >= 0.0
    ensures Profit(b, sell) == Ok(sell.amount + b.buyAmount - Step(b, sell).buyAmount)
  {
    var avg, held, pool := b.avgBuyPrice, b.buyQuantity, b.buyAmount;
    var sold, proceeds := sell.quantity, sell.amount;
    ReleasedCost(proceeds, avg, held, sold, pool);
    assert Step(b, sell).buyAmount == avg * (held + sold);
    assert Profit(b, sell).value
        == if held > -sold then proceeds - sold * (pool / held) else proceeds + pool;
  }

  /** On a sale that exactly closes the position the full-sale branch gives
      what the partial-sale formula would have given: the strict comparison
      does not make the rule jump at the boundary. */
  lemma BranchesAgreeWhenClosing(b: BuyData, sell: Row)
    requires b.buyQuantity == -sell.quantity != 0.0
    ensures Profit(b, sell) == Ok(sell.amount - sell.quantity * (b.buyAmount / b.buyQuantity))
  {
    ClosingFormula(sell.amount, b.buyAmount, b.buyQuantity, sell.quantity);
  }

  // Real-arithmetic steps of the two lemmas above, stated on plain numbers.

  lemma ReleasedCost(proceeds: real, avg: real, held: real, sold: real, pool: real)
    requires held != 0.0 ==> pool == avg * held
    requires sold <= 0.0 && held + sold >= 0.0
    ensures (if held > -sold then proceeds - sold * (pool / held) else proceeds + pool)
            == proceeds + pool - avg * (held + sold)
  {
    if held > -sold {
      assert pool / held == avg;
      assert avg * (held + sold) == avg * held + avg * sold;
    } else {
      assert held + sold == 0.0;
    }
  }

  lemma ClosingFormula(amount: real, pool: real, held: real, sold: real)
    requires held == -sold != 0.0
    ensures amount - sold * (pool / held) == amount + pool
  {
    var ratio := pool / held;
    assert ratio * held == pool;
    assert sold * ratio == -pool;
  }

  /** get_sell_profit over the ledger: the error cases, and otherwise the rule
      priced at the average of the replay before the row. */
  lemma SellProfitRule(data: seq<Row>, atIndex: nat)
    requires atIndex < |data|
    ensures var b, sell := StateBefore(data, atIndex), data[atIndex];
            SellProfit(data, atIndex)
            == if !PartialSale(data, atIndex) then Ok(sell.amount + b.buyAmount)
               else if b.buyQuantity == 0.0 then Err(DivisionByZero)
               else Ok(sell.amount - CostAt(b.avgBuyPrice, sell.quantity))
  {
    BuyDataInvariant(data, data[atIndex].symbol, atIndex);
    ProfitAtAverage(StateBefore(data, atIndex), data[atIndex]);
  }

  /** Every row with the export's sale sign has a defined profit. */
  lemma SaleProfitDefined(data: seq<Row>, atIndex: nat)
    requires atIndex < |data| && data[atIndex].quantity <= 0.0
    ensures PartialSale(data, atIndex) ==> StateBefore(data, atIndex).buyQuantity > 0.0
    ensures SellProfit(data, atIndex).Ok?
  {
    ProfitDefinedForSales(StateBefore(data, atIndex), data[atIndex]);
  }

  /** For a SELL row that does not oversell, the realized profit is the sale
      amount plus the pool before the row less the pool the replay reports
      once the row is included. */
  lemma ProfitIsProceedsLessReleasedCost(data: seq<Row>, atIndex: nat)
    requires atIndex < |data|
    requires data[atIndex].activity == Sell && data[atIndex].quantity <= 0.0
    requires StateBefore(data, atIndex).buyQuantity + data[atIndex].quantity >= 0.0
    ensures SellProfit(data, atIndex)
            == Ok(data[atIndex].amount + StateBefore(data, atIndex).buyAmount
                  - BuyDataBefore(data, data[atIndex].symbol, atIndex + 1).buyAmount)
  {
    var b, sell := StateBefore(data, atIndex), data[atIndex];
    assert SellProfit(data, atIndex) == Profit(b, sell);
    ReplayIncludesRow(data, atIndex);
    BuyDataInvariant(data, sell.symbol, atIndex);
    ProfitIsReleasedCost(b, sell);
  }

  /** A SELL row is admitted, so the replay one index further is the state
      before the row followed by the row's step. */
  lemma ReplayIncludesRow(data: seq<Row>, atIndex: nat)
    requires atIndex < |data| && data[atIndex].activity == Sell
    ensures BuyDataBefore(data, data[atIndex].symbol, atIndex + 1) == Step(StateBefore(data, atIndex), data[atIndex])
  {
    ReplayNext(data, data[atIndex].symbol, atIndex);
  }

  /** Both evaluators see the same replayed state: `before` is the held
      quantity get_sell_profit works with, and `after` adds the sale's
      quantity to it. */
  lemma PrePostMatchesReplay(data: seq<Row>, atIndex: nat)
    requires atIndex < |data|
    ensures PrePostQuantities(data, atIndex)
            == Ok(Holdings(StateBefore(data, atIndex).buyQuantity,
                           StateBefore(data, atIndex).buyQuantity + data[atIndex].quantity))
  {
  }

  /** For a SELL row, `after` is exactly the held quantity the replay reports
      for the next index of the same symbol. */
  lemma AfterIsNextReplay(data: seq<Row>, atIndex: nat)
    requires atIndex < |data| && data[atIndex].activity == Sell
    ensures PrePostQuantities(data, atIndex).Ok?
    ensures PrePostQuantities(data, atIndex).value.after
            == BuyDataBefore(data, data[atIndex].symbol, atIndex + 1).buyQuantity
  {
    ReplayNext(data, data[atIndex].symbol, atIndex);
    SellStep(StateBefore(data, atIndex), data[atIndex]);
  }

  /** A sale with a negative quantity lowers the holding. */
  lemma SaleLowersHolding(data: seq<Row>, atIndex: nat)
    requires atIndex < |data| && data[atIndex].quantity < 0.0
    ensures PrePostQuantities(data, atIndex).Ok?
    ensures PrePostQuantities(data, atIndex).value.after < PrePostQuantities(data, atIndex).value.before
  {
  }

  /** The profit rule takes the partial-sale branch exactly when shares
      remain after the sale. */
  lemma PartialSaleIffSharesRemain(data: seq<Row>, atIndex: nat)
    requires atIndex < |data|
    ensures PartialSale(data, atIndex) <==> PrePostQuantities(data, atIndex).value.after > 0.0
  {
  }
}
