/** The purchase ledger: an append-only table of purchases, the aggregates the
    bot reads from it (SUM(amount), SUM(total)) and the history query
    ordered by date, most recent first. */
module Ledger {
  import opened Wrappers

  /** The creation time of a row. The bot stores SQLite's
      `datetime('now')` text, whose lexicographic order is chronological;
      the model keeps only that order. */
  type Timestamp = int

  /** One row of the `purchases` table. */
  datatype Purchase = Purchase(amount: real, price: real, total: real, date: Timestamp)

  /** The row the add-purchase flow inserts: the total is computed as
      amount times price. */
  function NewPurchase(amount: real, price: real, now: Timestamp): (p: Purchase)
    ensures p.amount == amount && p.price == price && p.date == now
    ensures p.total == amount * price
  {
    Purchase(amount, price, amount * price, now)
  }

  /** Every row of the ledger was created by NewPurchase: its total is its
      amount times its price. */
  ghost predicate WellFormed(ledger: seq<Purchase>) {
    forall i :: 0 <= i < |ledger| ==> ledger[i].total == ledger[i].amount * ledger[i].price
  }

  // ---------------------------------------------------------------------
  // Sums

  function Sum(xs: seq<real>): real {
    if xs == [] then 0.0 else xs[0] + Sum(xs[1..])
  }

  lemma {:induction false} SumAppend(xs: seq<real>, x: real)
    ensures Sum(xs + [x]) == Sum(xs) + x
  {
    if xs == [] {
      assert xs + [x] == [x];
    } else {
      assert (xs + [x])[1..] == xs[1..] + [x];
      SumAppend(xs[1..], x);
    }
  }

  function Amounts(ledger: seq<Purchase>): (r: seq<real>)
    ensures |r| == |ledger|
    ensures forall i :: 0 <= i < |ledger| ==> r[i] == ledger[i].amount
  {
    seq(|ledger|, i requires 0 <= i < |ledger| => ledger[i].amount)
  }

  function Totals(ledger: seq<Purchase>): (r: seq<real>)
    ensures |r| == |ledger|
    ensures forall i :: 0 <= i < |ledger| ==> r[i] == ledger[i].total
  {
    seq(|ledger|, i requires 0 <= i < |ledger| => ledger[i].total)
  }

  /** The money spent on each purchase, from its own amount and price. */
  function Costs(ledger: seq<Purchase>): (r: seq<real>)
    ensures |r| == |ledger|
    ensures forall i :: 0 <= i < |ledger| ==> r[i] == ledger[i].amount * ledger[i].price
  {
    seq(|ledger|, i requires 0 <= i < |ledger| => ledger[i].amount * ledger[i].price)
  }

  /** SQL's SUM over a column: NULL on an empty table. */
  function SqlSum(column: seq<real>): (r: Option<real>)
    ensures r.None? <==> column == []
    ensures r.Some? ==> r.value == Sum(column)
  {
    if column == [] then None else Some(Sum(column))
  }

  /** `SELECT SUM(amount), SUM(total)` followed by `or 0` on each column:
      the bitcoin held and the money invested. */
  function Aggregate(ledger: seq<Purchase>): (r: (real, real))
    ensures r == (Sum(Amounts(ledger)), Sum(Totals(ledger)))
    ensures ledger == [] ==> r == (0.0, 0.0)
  {
    (SqlSum(Amounts(ledger)).GetOr(0.0), SqlSum(Totals(ledger)).GetOr(0.0))
  }

  /** `SELECT SUM(amount)` followed by `or 0`, as the moonshot flow reads it. */
  function TotalBtc(ledger: seq<Purchase>): (r: real)
    ensures r == Sum(Amounts(ledger))
    ensures ledger == [] ==> r == 0.0
  {
    SqlSum(Amounts(ledger)).GetOr(0.0)
  }

  /** Both aggregates are the plain sums of their columns, zero on an empty
      ledger, and the moonshot query agrees with the first column. */
  lemma AggregateIsSum(ledger: seq<Purchase>)
    ensures Aggregate(ledger) == (Sum(Amounts(ledger)), Sum(Totals(ledger)))
    ensures TotalBtc(ledger) == Aggregate(ledger).0
    ensures ledger == [] ==> Aggregate(ledger) == (0.0, 0.0)
  {
  }

  /** Appending one row adds its amount and its total to the aggregates. */
  lemma AggregateAppend(ledger: seq<Purchase>, p: Purchase)
    ensures Aggregate(ledger + [p]).0 == Aggregate(ledger).0 + p.amount
    ensures Aggregate(ledger + [p]).1 == Aggregate(ledger).1 + p.total
  {
    assert Amounts(ledger + [p]) == Amounts(ledger) + [p.amount];
    assert Totals(ledger + [p]) == Totals(ledger) + [p.total];
    SumAppend(Amounts(ledger), p.amount);
    SumAppend(Totals(ledger), p.total);
  }

  /** On a ledger built by completed purchases, the invested total is the
      sum of amount times price over the purchases. */
  lemma AggregateOfPurchases(ledger: seq<Purchase>)
    requires WellFormed(ledger)
    ensures Aggregate(ledger) == (Sum(Amounts(ledger)), Sum(Costs(ledger)))
  {
    assert Totals(ledger) == Costs(ledger);
  }

  /** The ledger obtained by recording the (amount, price, time) inputs of
      successive completed purchases, in order. */
  function Recorded(inputs: seq<(real, real, Timestamp)>): (ledger: seq<Purchase>)
    ensures |ledger| == |inputs|
    ensures WellFormed(ledger)
  {
    if inputs == [] then []
    else Recorded(inputs[..|inputs| - 1]) + [NewPurchase(inputs[|inputs| - 1].0, inputs[|inputs| - 1].1, inputs[|inputs| - 1].2)]
  }

  /** Row i is the purchase entered i-th. */
  lemma {:induction false} RecordedRows(inputs: seq<(real, real, Timestamp)>)
    ensures forall i :: 0 <= i < |inputs| ==> Recorded(inputs)[i] == NewPurchase(inputs[i].0, inputs[i].1, inputs[i].2)
  {
    if inputs != [] {
      RecordedRows(inputs[..|inputs| - 1]);
    }
  }

  function InputAmounts(inputs: seq<(real, real, Timestamp)>): seq<real> {
    seq(|inputs|, i requires 0 <= i < |inputs| => inputs[i].0)
  }

  function InputCosts(inputs: seq<(real, real, Timestamp)>): seq<real> {
    seq(|inputs|, i requires 0 <= i < |inputs| => inputs[i].0 * inputs[i].1)
  }

  /** After any sequence of completed purchases the aggregates are the sum
      of the amounts entered and the sum of amount times price entered. */
  lemma {:induction false} AggregateOfRecorded(inputs: seq<(real, real, Timestamp)>)
    ensures Aggregate(Recorded(inputs)) == (Sum(InputAmounts(inputs)), Sum(InputCosts(inputs)))
  {
    if inputs == [] {
    } else {
      var init, last := inputs[..|inputs| - 1], inputs[|inputs| - 1];
      assert inputs == init + [last];
      AggregateOfRecorded(init);
      AggregateAppend(Recorded(init), NewPurchase(last.0, last.1, last.2));
      assert InputAmounts(inputs) == InputAmounts(init) + [last.0];
      forall k | 0 <= k < |inputs|
        ensures InputCosts(inputs)[k] == (InputCosts(init) + [last.0 * last.1])[k]
      {
        if k < |init| { assert inputs[k] == init[k]; }
      }
      assert InputCosts(inputs) == InputCosts(init) + [last.0 * last.1];
      SumAppend(InputAmounts(init), last.0);
      SumAppend(InputCosts(init), last.0 * last.1);
    }
  }

  // ---------------------------------------------------------------------
  // History query: ORDER BY date DESC

  ghost predicate DateDescending(rows: seq<Purchase>) {
    forall i, j :: 0 <= i < j < |rows| ==> rows[i].date >= rows[j].date
  }

  /** Inserts `p` before the first row that is not more recent than it. */
  function InsertByDate(p: Purchase, rows: seq<Purchase>): (r: seq<Purchase>)
    ensures multiset(r) == multiset(rows) + multiset{p}
  {
    if rows == [] || rows[0].date <= p.date then [p] + rows
    else
      assert rows == [rows[0]] + rows[1..];
      [rows[0]] + InsertByDate(p, rows[1..])
  }

  /** Inserting a row no more recent than `bound` into rows no more recent
      than `bound` gives rows no more recent than `bound`. */
  lemma {:induction false} InsertByDateBounded(p: Purchase, rows: seq<Purchase>, bound: Timestamp)
    requires p.date <= bound
    requires forall i :: 0 <= i < |rows| ==> rows[i].date <= bound
    ensures forall i :: 0 <= i < |InsertByDate(p, rows)| ==> InsertByDate(p, rows)[i].date <= bound
  {
    if rows != [] && rows[0].date > p.date {
      InsertByDateBounded(p, rows[1..], bound);
    }
  }

  lemma {:induction false} InsertByDateSorted(p: Purchase, rows: seq<Purchase>)
    requires DateDescending(rows)
    ensures DateDescending(InsertByDate(p, rows))
  {
    if rows != [] && rows[0].date > p.date {
      var rest := InsertByDate(p, rows[1..]);
      InsertByDateSorted(p, rows[1..]);
      InsertByDateBounded(p, rows[1..], rows[0].date);
      assert InsertByDate(p, rows) == [rows[0]] + rest;
    }
  }

  /** The rows of the history query: all of the ledger, most recent first. */
  function ByDateDescending(ledger: seq<Purchase>): (rows: seq<Purchase>)
    ensures DateDescending(rows)
    ensures multiset(rows) == multiset(ledger)
  {
    if ledger == [] then []
    else
      assert ledger == [ledger[0]] + ledger[1..];
      InsertByDateSorted(ledger[0], ByDateDescending(ledger[1..]));
      InsertByDate(ledger[0], ByDateDescending(ledger[1..]))
  }
}
