/**
  The transaction ledger of a Revolut trading export, as the calculator sees
  it once the spreadsheet has been read: one row per transaction, in the
  order of the sheet. A row's position in the sequence stands for its index
  label in the data frame; dropping empty rows may leave gaps in the labels
  but keeps their order, so "label below at_index" becomes "position below
  atIndex".
*/
module Ledger {

  /** The activity labels of the export. BUY, SELL, SSO, SSP, CDEP and CSD
      each have their own constructor; Other carries any remaining label and
      never one of these six, so a row labelled "BUY" is always Buy. The
      replay admits BUY, SELL, SSO and SSP, and acts on all of them except
      SSO. */
  datatype Activity = Buy | Sell | Sso | Ssp | Cdep | Csd | Other(name: string)

  /** One ledger row. Sign conventions of the export: a BUY amount is negative
      (cash out), a SELL quantity is negative and a SELL amount positive. */
  datatype Row = Row(symbol: string, activity: Activity, quantity: real, amount: real)

  /** The activities the cost-basis replay admits. */
  predicate ReplayActivity(a: Activity) {
    a == Buy || a == Sell || a == Sso || a == Ssp
  }

  /** A row takes part in the replay for `stockCode` when it is of that symbol
      and of an admitted activity. */
  predicate Relevant(row: Row, stockCode: string) {
    row.symbol == stockCode && ReplayActivity(row.activity)
  }

  function Min(a: nat, b: nat): nat {
    if a <= b then a else b
  }

  /** The rows of `rows`, in order, that take part in the replay for
      `stockCode`. */
  function Filter(rows: seq<Row>, stockCode: string): (f: seq<Row>)
    ensures |f| <= |rows|
    ensures forall r :: r in f <==> r in rows && Relevant(r, stockCode)
  {
    if rows == [] then []
    else
      var last := rows[|rows| - 1];
      assert rows == rows[..|rows| - 1] + [last];
      Filter(rows[..|rows| - 1], stockCode) + (if Relevant(last, stockCode) then [last] else [])
  }

  /** The rows the replay for `stockCode` folds over when it stops before
      position `atIndex`: same symbol, position strictly below `atIndex`,
      admitted activity. */
  function Selected(data: seq<Row>, stockCode: string, atIndex: nat): seq<Row> {
    Filter(data[..Min(atIndex, |data|)], stockCode)
  }

  /** Without a relevant row nothing is selected. */
  lemma {:induction false} FilterNoneRelevant(rows: seq<Row>, stockCode: string)
    requires forall i :: 0 <= i < |rows| ==> !Relevant(rows[i], stockCode)
    ensures Filter(rows, stockCode) == []
  {
    if rows != [] {
      FilterNoneRelevant(rows[..|rows| - 1], stockCode);
    }
  }

  /** A single row is kept exactly when it is relevant. */
  lemma FilterSingleton(r: Row, stockCode: string)
    ensures Filter([r], stockCode) == if Relevant(r, stockCode) then [r] else []
  {
    assert [r][..0] == [];
  }

  /** Filtering distributes over concatenation. */
  lemma {:induction false} FilterAppend(a: seq<Row>, b: seq<Row>, stockCode: string)
    ensures Filter(a + b, stockCode) == Filter(a, stockCode) + Filter(b, stockCode)
  {
    if b != [] {
      var last := b[|b| - 1];
      assert (a + b)[..|a + b| - 1] == a + b[..|b| - 1];
      assert (a + b)[|a + b| - 1] == last;
      FilterAppend(a, b[..|b| - 1], stockCode);
    } else {
      assert a + b == a;
    }
  }

  /** Only rows of the symbol, below the index and of an admitted activity
      are selected: replacing any other row by another row that is not
      selected either leaves the selection unchanged. */
  lemma SelectedIgnoresOtherRows(data: seq<Row>, stockCode: string, atIndex: nat, k: nat, r: Row)
    requires k < |data|
    requires k >= atIndex || (!Relevant(data[k], stockCode) && !Relevant(r, stockCode))
    ensures Selected(data[k := r], stockCode, atIndex) == Selected(data, stockCode, atIndex)
  {
    var n := Min(atIndex, |data|);
    var d' := data[k := r];
    if k >= atIndex {
      assert d'[..n] == data[..n];
    } else {
      assert d'[..n] == data[..k] + [r] + data[k + 1..n];
      assert data[..n] == data[..k] + [data[k]] + data[k + 1..n];
      FilterAppend(data[..k] + [r], data[k + 1..n], stockCode);
      FilterAppend(data[..k], [r], stockCode);
      FilterAppend(data[..k] + [data[k]], data[k + 1..n], stockCode);
      FilterAppend(data[..k], [data[k]], stockCode);
      assert Filter([r], stockCode) == [] by {
        assert [r][..0] == [];
      }
      assert Filter([data[k]], stockCode) == [] by {
        assert [data[k]][..0] == [];
      }
    }
  }

  /** Moving the stop index one row further adds exactly that row to the
      selection when it is relevant, and nothing otherwise. */
  lemma SelectedNext(data: seq<Row>, stockCode: string, atIndex: nat)
    requires atIndex < |data|
    ensures Selected(data, stockCode, atIndex + 1)
         == Selected(data, stockCode, atIndex)
            + (if Relevant(data[atIndex], stockCode) then [data[atIndex]] else [])
  {
    assert data[..atIndex + 1][..atIndex] == data[..atIndex];
  }
}
