/**
  Worked ledgers for the evaluators, with the export's signs: BUY amounts
  negative, SELL quantities negative and SELL amounts positive.
*/
module Scenarios {
  import opened Ledger
  import opened Replay
  import opened SaleEvaluator

  /** Buy 10 for -100, then sell 4 for 60: a partial sale at the average of
      10 a share earns 60 - 40 = 20 and leaves 6 shares. */
  lemma PartialSaleScenario()
    ensures var data := [Row("AAPL", Buy, 10.0, -100.0), Row("AAPL", Sell, -4.0, 60.0)];
            SellProfit(data, 1) == Ok(20.0) && PrePostQuantities(data, 1) == Ok(Holdings(10.0, 6.0))
  {
    var data := [Row("AAPL", Buy, 10.0, -100.0), Row("AAPL", Sell, -4.0, 60.0)];
    assert data[..0] == [];
    ReplayNext(data, "AAPL", 0);
    assert BuyDataBefore(data, "AAPL", 1) == BuyData(-10.0, 10.0, -100.0);
  }

  /** Buy 10 for -100, then sell all 10 for 150: a full sale earns
      150 - 100 = 50 and leaves nothing. */
  lemma FullSaleScenario()
    ensures var data := [Row("AAPL", Buy, 10.0, -100.0), Row("AAPL", Sell, -10.0, 150.0)];
            SellProfit(data, 1) == Ok(50.0) && PrePostQuantities(data, 1) == Ok(Holdings(10.0, 0.0))
  {
    var data := [Row("AAPL", Buy, 10.0, -100.0), Row("AAPL", Sell, -10.0, 150.0)];
    assert data[..0] == [];
    ReplayNext(data, "AAPL", 0);
    assert BuyDataBefore(data, "AAPL", 1) == BuyData(-10.0, 10.0, -100.0);
  }

  /** Two buys of 10 for -100 and -300 average to 20 a share; selling 5 for
      150 earns 150 - 100 = 50 and leaves 15. */
  lemma WeightedAverageScenario()
    ensures var data := [Row("AAPL", Buy, 10.0, -100.0), Row("AAPL", Buy, 10.0, -300.0),
                         Row("AAPL", Sell, -5.0, 150.0)];
            BuyDataBefore(data, "AAPL", 2) == BuyData(-20.0, 20.0, -400.0) &&
            SellProfit(data, 2) == Ok(50.0) && PrePostQuantities(data, 2) == Ok(Holdings(20.0, 15.0))
  {
    var data := [Row("AAPL", Buy, 10.0, -100.0), Row("AAPL", Buy, 10.0, -300.0),
                 Row("AAPL", Sell, -5.0, 150.0)];
    assert data[..0] == [];
    ReplayNext(data, "AAPL", 0);
    ReplayNext(data, "AAPL", 1);
    assert BuyDataBefore(data, "AAPL", 1) == BuyData(-10.0, 10.0, -100.0);
    assert BuyDataBefore(data, "AAPL", 2) == BuyData(-20.0, 20.0, -400.0);
  }

  /** A 2-for-1 split booked as SSP of 10 shares for 0 halves the average;
      selling all 20 for 120 is a full sale earning 120 - 100 = 20. */
  lemma SplitScenario()
    ensures var data := [Row("AAPL", Buy, 10.0, -100.0), Row("AAPL", Ssp, 10.0, 0.0),
                         Row("AAPL", Sell, -20.0, 120.0)];
            BuyDataBefore(data, "AAPL", 2) == BuyData(-5.0, 20.0, -100.0) &&
            SellProfit(data, 2) == Ok(20.0) && PrePostQuantities(data, 2) == Ok(Holdings(20.0, 0.0))
  {
    var data := [Row("AAPL", Buy, 10.0, -100.0), Row("AAPL", Ssp, 10.0, 0.0),
                 Row("AAPL", Sell, -20.0, 120.0)];
    assert data[..0] == [];
    ReplayNext(data, "AAPL", 0);
    ReplayNext(data, "AAPL", 1);
    assert BuyDataBefore(data, "AAPL", 1) == BuyData(-10.0, 10.0, -100.0);
    assert BuyDataBefore(data, "AAPL", 2) == BuyData(-5.0, 20.0, -100.0);
  }

  /** Between a buy of 10 for -100 and a sale of 4 for 60 sit a row of
      another symbol, a cash deposit and an SSO row of 5 shares: the replay
      before the sale sees only the buy, where a bought SSO row would have
      made it 15 shares. */
  lemma MixedLedgerReplay()
    ensures var data := [Row("AAPL", Buy, 10.0, -100.0), Row("TSLA", Buy, 5.0, -500.0),
                         Row("AAPL", Cdep, 0.0, 1000.0), Row("AAPL", Sso, 5.0, -50.0),
                         Row("AAPL", Sell, -4.0, 60.0)];
            BuyDataBefore(data, "AAPL", 4) == BuyData(-10.0, 10.0, -100.0)
  {
    var data := [Row("AAPL", Buy, 10.0, -100.0), Row("TSLA", Buy, 5.0, -500.0),
                 Row("AAPL", Cdep, 0.0, 1000.0), Row("AAPL", Sso, 5.0, -50.0),
                 Row("AAPL", Sell, -4.0, 60.0)];
    assert data[..0] == [];
    var held := BuyData(-10.0, 10.0, -100.0);
    ReplayNext(data, "AAPL", 0);
    assert BuyDataBefore(data, "AAPL", 1) == held;
    ReplayNext(data, "AAPL", 1);
    assert !Relevant(data[1], "AAPL");
    assert BuyDataBefore(data, "AAPL", 2) == held;
    ReplayNext(data, "AAPL", 2);
    assert !Relevant(data[2], "AAPL");
    assert BuyDataBefore(data, "AAPL", 3) == held;
    ReplayNext(data, "AAPL", 3);
    SsoStepIsNoOp(held, data[3]);
    assert BuyDataBefore(data, "AAPL", 4) == held;
  }

  /** Rows of another symbol, a cash deposit and an SSO row of 5 shares do
      not change the partial-sale scenario. */
  lemma OtherRowsScenario()
    ensures var data := [Row("AAPL", Buy, 10.0, -100.0), Row("TSLA", Buy, 5.0, -500.0),
                         Row("AAPL", Cdep, 0.0, 1000.0), Row("AAPL", Sso, 5.0, -50.0),
                         Row("AAPL", Sell, -4.0, 60.0)];
            SellProfit(data, 4) == Ok(20.0) && PrePostQuantities(data, 4) == Ok(Holdings(10.0, 6.0))
  {
    MixedLedgerReplay();
  }

  /** A sale with no history is a full sale against an empty pool, and an
      index past the ledger is reported as missing. */
  lemma DegenerateScenario()
    ensures var data := [Row("AAPL", Sell, -1.0, 10.0)];
            SellProfit(data, 0) == Ok(10.0) && PrePostQuantities(data, 0) == Ok(Holdings(0.0, -1.0)) &&
            SellProfit(data, 1) == Err(MissingIndex) && PrePostQuantities(data, 1) == Err(MissingIndex)
  {
    var data := [Row("AAPL", Sell, -1.0, 10.0)];
    assert data[..0] == [];
  }
}
