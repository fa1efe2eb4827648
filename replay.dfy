/**
  The weighted-average cost-basis replay of revolut_calculator.py
  (get_buy_data): the rows of one symbol before a given position are folded
  in order into the triple (average buy price, held quantity, cost pool),
  starting from (0, 0, 0).
*/
module Replay {
  import opened Ledger

  /** The replayed state: avg_buy_price, buy_quantity and buy_amount. With the
      export's signs the cost pool buyAmount is negative while shares are held. */
  datatype BuyData = BuyData(avgBuyPrice: real, buyQuantity: real, buyAmount: real)

  const Start := BuyData(0.0, 0.0, 0.0)

  /** One iteration of the replay loop. BUY and SSP add quantity and amount
      and re-average when the quantity is nonzero; SELL adds its (negative)
      quantity, re-derives the pool from the unchanged average and drops the
      average when the pool is zero; every other activity, SSO included, does
      nothing. */
  function Step(s: BuyData, row: Row): BuyData {
    if row.activity == Buy || row.activity == Ssp then
      var q := s.buyQuantity + row.quantity;
      var a := s.buyAmount + row.amount;
      BuyData(if q != 0.0 then a / q else s.avgBuyPrice, q, a)
    else if row.activity == Sell then
      var q := s.buyQuantity + row.quantity;
      var a := s.avgBuyPrice * q;
      BuyData(if a == 0.0 then 0.0 else s.avgBuyPrice, q, a)
    else
      s
  }

  /** The state after folding `rows`, in order, from `s`. */
  function Fold(s: BuyData, rows: seq<Row>): BuyData {
    if rows == [] then s
    else Step(Fold(s, rows[..|rows| - 1]), rows[|rows| - 1])
  }

  /** What get_buy_data returns for `stockCode` and `atIndex`. */
  function BuyDataBefore(data: seq<Row>, stockCode: string, atIndex: nat): BuyData {
    Fold(Start, Selected(data, stockCode, atIndex))
  }

  /** The pool is priced at the average: buy_amount == avg_buy_price * buy_quantity. */
  predicate PricedAtAverage(s: BuyData) {
    s.buyAmount == s.avgBuyPrice * s.buyQuantity
  }

  /** The replay invariant: whenever shares are held, the pool is priced at
      the average. */
  predicate CostBasisInvariant(s: BuyData) {
    s.buyQuantity != 0.0 ==> PricedAtAverage(s)
  }

  /** Sum of the quantities of `rows`. */
  function TotalQuantity(rows: seq<Row>): real {
    if rows == [] then 0.0 else TotalQuantity(rows[..|rows| - 1]) + rows[|rows| - 1].quantity
  }

  /** Sum of the amounts of `rows`. */
  function TotalAmount(rows: seq<Row>): real {
    if rows == [] then 0.0 else TotalAmount(rows[..|rows| - 1]) + rows[|rows| - 1].amount
  }

  predicate Acquisition(row: Row) {
    row.activity == Buy || row.activity == Ssp
  }

  /** The selection of get_buy_data: the rows of `stockCode` strictly before
      `atIndex` whose activity the replay admits, in ledger order. */
  method SelectRows(data: seq<Row>, stockCode: string, atIndex: nat) returns (buy: seq<Row>)
    ensures buy == Selected(data, stockCode, atIndex)
  {
    var n := Min(atIndex, |data|);
    buy := [];
    var k := 0;
    while k < n
      invariant k <= n
      invariant buy == Filter(data[..k], stockCode)
    {
      assert data[..k + 1][..k] == data[..k];
      if Relevant(data[k], stockCode) {
        buy := buy + [data[k]];
      }
      k := k + 1;
    }
  }

  /** One pass of the replay loop body: update the three accumulators for
      `row`. */
  method ReplayRow(avgBuyPrice0: real, buyQuantity0: real, buyAmount0: real, row: Row)
    returns (avgBuyPrice: real, buyQuantity: real, buyAmount: real)
    ensures BuyData(avgBuyPrice, buyQuantity, buyAmount) == Step(BuyData(avgBuyPrice0, buyQuantity0, buyAmount0), row)
  {
    avgBuyPrice, buyQuantity, buyAmount := avgBuyPrice0, buyQuantity0, buyAmount0;
    if row.activity == Buy || row.activity == Ssp {
      buyQuantity := buyQuantity + row.quantity;
      buyAmount := buyAmount + row.amount;
      if buyQuantity != 0.0 {
        avgBuyPrice := buyAmount / buyQuantity;
      }
    } else if row.activity == Sell {
      buyQuantity := buyQuantity + row.quantity;
      buyAmount := avgBuyPrice * buyQuantity;
      if buyAmount == 0.0 {
        avgBuyPrice := 0.0;
      }
    }
  }

  /** get_buy_data: select the rows, then walk them updating the three
      accumulators row by row. */
  method GetBuyData(data: seq<Row>, stockCode: string, atIndex: nat)
    returns (avgBuyPrice: real, buyQuantity: real, buyAmount: real)
    ensures BuyData(avgBuyPrice, buyQuantity, buyAmount) == BuyDataBefore(data, stockCode, atIndex)
  {
    var buy := SelectRows(data, stockCode, atIndex);
    buyQuantity, buyAmount, avgBuyPrice := 0.0, 0.0, 0.0;
    var i := 0;
    while i < |buy|
      invariant i <= |buy|
      invariant BuyData(avgBuyPrice, buyQuantity, buyAmount) == Fold(Start, buy[..i])
    {
      var row := buy[i];
      avgBuyPrice, buyQuantity, buyAmount := ReplayRow(avgBuyPrice, buyQuantity, buyAmount, row);
      FoldNext(Start, buy, i);
      i := i + 1;
    }
    assert buy[..|buy|] == buy;
  }

  /** Folding one more row is one more step. */
  lemma FoldNext(s: BuyData, rows: seq<Row>, i: nat)
    requires i < |rows|
    ensures Fold(s, rows[..i + 1]) == Step(Fold(s, rows[..i]), rows[i])
  {
    assert rows[..i + 1][..i] == rows[..i];
  }

  /** A BUY or SSP adds its quantity and its amount to the position; when the
      position is nonzero the new average prices the whole pool, otherwise the
      average is left as it was. */
  lemma AcquisitionStep(s: BuyData, row: Row)
    requires Acquisition(row)
    ensures Step(s, row).buyQuantity == s.buyQuantity + row.quantity
    ensures Step(s, row).buyAmount == s.buyAmount + row.amount
    ensures Step(s, row).buyQuantity != 0.0 ==> PricedAtAverage(Step(s, row))
    ensures Step(s, row).buyQuantity == 0.0 ==> Step(s, row).avgBuyPrice == s.avgBuyPrice
  {
    var t := Step(s, row);
    if t.buyQuantity != 0.0 {
      assert t.avgBuyPrice == t.buyAmount / t.buyQuantity;
    }
  }

  /** A SELL adds its quantity, keeps the average and re-prices the pool at
      it; the average is reset to zero exactly when the new pool is zero, that
      is when the average was already zero or the position is closed. */
  lemma SellStep(s: BuyData, row: Row)
    requires row.activity == Sell
    ensures Step(s, row).buyQuantity == s.buyQuantity + row.quantity
    ensures Step(s, row).buyAmount == s.avgBuyPrice * Step(s, row).buyQuantity
    ensures Step(s, row).avgBuyPrice == 0.0 <==> Step(s, row).buyAmount == 0.0
    ensures Step(s, row).avgBuyPrice
         == (if s.avgBuyPrice == 0.0 || Step(s, row).buyQuantity == 0.0 then 0.0 else s.avgBuyPrice)
    ensures PricedAtAverage(Step(s, row))
  {
  }

  /** A sale that closes the position leaves exactly the initial state. */
  lemma ClosingSaleResets(s: BuyData, row: Row)
    requires row.activity == Sell
    requires s.buyQuantity + row.quantity == 0.0
    ensures Step(s, row) == Start
  {
  }

  /** SSO rows pass the filter but change nothing. */
  lemma SsoStepIsNoOp(s: BuyData, row: Row)
    requires row.activity == Sso
    ensures Step(s, row) == s
  {
  }

  /** Folding two pieces is folding the second from where the first ended. */
  lemma {:induction false} FoldAppend(s: BuyData, a: seq<Row>, b: seq<Row>)
    ensures Fold(s, a + b) == Fold(Fold(s, a), b)
  {
    if b == [] {
      assert a + b == a;
    } else {
      assert (a + b)[..|a + b| - 1] == a + b[..|b| - 1];
      assert (a + b)[|a + b| - 1] == b[|b| - 1];
      FoldAppend(s, a, b[..|b| - 1]);
    }
  }

  /** Removing an SSO row from the replayed rows does not change the result. */
  lemma SsoRowChangesNothing(s: BuyData, a: seq<Row>, r: Row, b: seq<Row>)
    requires r.activity == Sso
    ensures Fold(s, a + [r] + b) == Fold(s, a + b)
  {
    FoldAppend(s, a + [r], b);
    FoldAppend(s, a, [r]);
    FoldAppend(s, a, b);
    assert [r][..0] == [];
  }

  /** The invariant holds at the start and is kept by every step. */
  lemma StepKeepsInvariant(s: BuyData, row: Row)
    requires CostBasisInvariant(s)
    ensures CostBasisInvariant(Step(s, row))
  {
    if Acquisition(row) {
      AcquisitionStep(s, row);
    } else if row.activity == Sell {
      SellStep(s, row);
    }
  }

  /** Every replayed state keeps the cost-basis invariant. */
  lemma {:induction false} FoldKeepsInvariant(s: BuyData, rows: seq<Row>)
    requires CostBasisInvariant(s)
    ensures CostBasisInvariant(Fold(s, rows))
  {
    if rows != [] {
      FoldKeepsInvariant(s, rows[..|rows| - 1]);
      StepKeepsInvariant(Fold(s, rows[..|rows| - 1]), rows[|rows| - 1]);
    }
  }

  /** What get_buy_data returns always satisfies the cost-basis invariant. */
  lemma BuyDataInvariant(data: seq<Row>, stockCode: string, atIndex: nat)
    ensures CostBasisInvariant(BuyDataBefore(data, stockCode, atIndex))
  {
    FoldKeepsInvariant(Start, Selected(data, stockCode, atIndex));
  }

  /** Over a run of purchases the position is the total quantity, the pool the
      total amount, and (when the total quantity is nonzero) the average is
      the weighted average total amount / total quantity. */
  lemma {:induction false} WeightedAverage(rows: seq<Row>)
    requires forall i :: 0 <= i < |rows| ==> Acquisition(rows[i])
    ensures Fold(Start, rows).buyQuantity == TotalQuantity(rows)
    ensures Fold(Start, rows).buyAmount == TotalAmount(rows)
    ensures TotalQuantity(rows) != 0.0 ==>
              Fold(Start, rows).avgBuyPrice == TotalAmount(rows) / TotalQuantity(rows)
  {
    if rows != [] {
      var init := rows[..|rows| - 1];
      assert forall i :: 0 <= i < |init| ==> init[i] == rows[i];
      WeightedAverage(init);
      AcquisitionStep(Fold(Start, init), rows[|rows| - 1]);
    }
  }

  /** With no row of the symbol, below the index and of an admitted
      activity, the replay returns (0, 0, 0). */
  lemma NoRelevantRowsGivesStart(data: seq<Row>, stockCode: string, atIndex: nat)
    requires forall j :: 0 <= j < |data| && j < atIndex ==> !Relevant(data[j], stockCode)
    ensures BuyDataBefore(data, stockCode, atIndex) == Start
  {
    FilterNoneRelevant(data[..Min(atIndex, |data|)], stockCode);
  }

  /** Rows of other symbols, of other activities, or at or after the index
      do not affect the replay. */
  lemma OtherRowsDoNotMatter(data: seq<Row>, stockCode: string, atIndex: nat, k: nat, r: Row)
    requires k < |data|
    requires k >= atIndex || (!Relevant(data[k], stockCode) && !Relevant(r, stockCode))
    ensures BuyDataBefore(data[k := r], stockCode, atIndex) == BuyDataBefore(data, stockCode, atIndex)
  {
    SelectedIgnoresOtherRows(data, stockCode, atIndex, k, r);
  }

  /** Replaying one row further applies that row's step when it is
      relevant, and changes nothing otherwise. */
  lemma ReplayNext(data: seq<Row>, stockCode: string, atIndex: nat)
    requires atIndex < |data|
    ensures BuyDataBefore(data, stockCode, atIndex + 1)
            == if Relevant(data[atIndex], stockCode)
               then Step(BuyDataBefore(data, stockCode, atIndex), data[atIndex])
               else BuyDataBefore(data, stockCode, atIndex)
  {
    SelectedNext(data, stockCode, atIndex);
    if Relevant(data[atIndex], stockCode) {
      var sel, sel' := Selected(data, stockCode, atIndex), Selected(data, stockCode, atIndex + 1);
      FoldNext(Start, sel', |sel|);
      assert sel'[..|sel|] == sel;
      assert sel'[..|sel| + 1] == sel';
    } else {
      assert Selected(data, stockCode, atIndex) + [] == Selected(data, stockCode, atIndex);
    }
  }

  /** After a sale that closes the position, the history before it is
      forgotten: the replay is the replay of the later rows alone. */
  lemma ReplayRestartsAfterClosingSale(data: seq<Row>, stockCode: string, k: nat, atIndex: nat)
    requires k < atIndex <= |data|
    requires data[k].symbol == stockCode && data[k].activity == Sell
    requires BuyDataBefore(data, stockCode, k).buyQuantity + data[k].quantity == 0.0
    ensures BuyDataBefore(data, stockCode, atIndex) == Fold(Start, Filter(data[k + 1..atIndex], stockCode))
  {
    SelectedNext(data, stockCode, k);
    ClosingSaleResets(BuyDataBefore(data, stockCode, k), data[k]);
    assert data[..atIndex] == data[..k + 1] + data[k + 1..atIndex];
    assert data[..k + 1] == data[..Min(k + 1, |data|)];
    FilterAppend(data[..k + 1], data[k + 1..atIndex], stockCode);
    FoldAppend(Start, Selected(data, stockCode, k + 1), Filter(data[k + 1..atIndex], stockCode));
  }
}
