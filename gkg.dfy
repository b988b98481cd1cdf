/** The court fee table of the court fee act: ten brackets, each with an
    inclusive upper limit and one fee per kind of proceeding. The calculator
    reads it as every other bracket table, and amounts above the last limit
    take the last row. */
module Gkg {
  import opened Brackets

  /** One bracket: its inclusive upper limit and the fee in each of the five
      kinds of proceeding. */
  datatype GkgFeeStep = GkgFeeStep(limit: real, zivil: real, schuld: real, ausserstreit: real,
                                   exekution: real, sicherung: real)

  /** The five kinds of proceeding: contentious civil proceedings, debt
      collection, non-contentious proceedings, enforcement, and protective
      measures and provisional enforcement. */
  datatype GkgColumn = Zivil | Schuld | Ausserstreit | Exekution | Sicherung

  const AllColumns: set<GkgColumn> := {Zivil, Schuld, Ausserstreit, Exekution, Sicherung}

  /** The fee a row holds for one kind of proceeding. */
  function ColumnFee(row: GkgFeeStep, column: GkgColumn): real {
    match column
    case Zivil => row.zivil
    case Schuld => row.schuld
    case Ausserstreit => row.ausserstreit
    case Exekution => row.exekution
    case Sicherung => row.sicherung
  }

  const TableGkg: seq<GkgFeeStep> := [
    GkgFeeStep(100.0, 120.0, 10.0, 10.0, 10.0, 30.0),
    GkgFeeStep(500.0, 120.0, 20.0, 20.0, 20.0, 30.0),
    GkgFeeStep(1000.0, 120.0, 30.0, 30.0, 30.0, 30.0),
    GkgFeeStep(5000.0, 300.0, 50.0, 100.0, 50.0, 50.0),
    GkgFeeStep(10000.0, 500.0, 50.0, 100.0, 50.0, 100.0),
    GkgFeeStep(50000.0, 850.0, 90.0, 210.0, 90.0, 200.0),
    GkgFeeStep(100000.0, 2000.0, 90.0, 510.0, 170.0, 400.0),
    GkgFeeStep(500000.0, 4000.0, 170.0, 1000.0, 850.0, 900.0),
    GkgFeeStep(1000000.0, 5000.0, 340.0, 1900.0, 1700.0, 1700.0),
    GkgFeeStep(2000000.0, 7200.0, 850.0, 4500.0, 4000.0, 4000.0)]

  /** The limits of the court fee rows, for the bracket lookup. `Fees.Limits`
      does the same for the attorney fee steps; the two row types differ, and a
      projection shared through a field-selector function would put a
      higher-order application into every lookup proof, so each row type keeps
      its own. */
  function GkgLimits(table: seq<GkgFeeStep>): (s: seq<real>)
    ensures |s| == |table|
    ensures forall i :: 0 <= i < |table| ==> s[i] == table[i].limit
  {
    seq(|table|, i requires 0 <= i < |table| => table[i].limit)
  }

  function ColumnFees(table: seq<GkgFeeStep>, column: GkgColumn): (s: seq<real>)
    ensures |s| == |table|
    ensures forall i :: 0 <= i < |table| ==> s[i] == ColumnFee(table[i], column)
  {
    seq(|table|, i requires 0 <= i < |table| => ColumnFee(table[i], column))
  }

  /** The row for a disputed amount: the first row whose limit covers it, or
      the last row for amounts above the last limit. */
  function RowIndex(table: seq<GkgFeeStep>, value: real): (i: nat)
    requires |table| > 0
    ensures i < |table|
    ensures forall j :: 0 <= j < i ==> table[j].limit < value
    ensures value <= table[i].limit || i == |table| - 1
  {
    var k := FirstAtLeast(GkgLimits(table), value);
    if k < |table| then k else |table| - 1
  }

  /** The court fee for a disputed amount in one kind of proceeding. */
  function CourtFee(value: real, column: GkgColumn): real {
    ColumnFee(TableGkg[RowIndex(TableGkg, value)], column)
  }

  /** Ten rows, limits strictly ascending from 100 to 2,000,000. */
  lemma TableShape()
    ensures |TableGkg| == 10 && Increasing(GkgLimits(TableGkg))
    ensures TableGkg[0].limit == 100.0 && TableGkg[9].limit == 2000000.0
  {
    assert StepwiseIncreasing(GkgLimits(TableGkg));
    StepwiseIncreasingIsIncreasing(GkgLimits(TableGkg));
  }

  /** In every column a later row never holds a smaller fee. */
  lemma ColumnsNonDecreasing(column: GkgColumn)
    ensures NonDecreasing(ColumnFees(TableGkg, column))
  {
    assert StepwiseNonDecreasing(ColumnFees(TableGkg, column));
    StepwiseNonDecreasingIsNonDecreasing(ColumnFees(TableGkg, column));
  }

  /** A limit is the inclusive upper end of its bracket: an amount above limit
      k - 1 and at or below limit k reads row k. */
  lemma RowInBracket(value: real, k: nat)
    requires k < |TableGkg|
    requires (k == 0 || TableGkg[k - 1].limit < value) && value <= TableGkg[k].limit
    ensures RowIndex(TableGkg, value) == k
  {
    TableShape();
    FirstAtLeastInBracket(GkgLimits(TableGkg), value, k);
  }

  /** Amounts above 2,000,000 take the last row: 7200 in contentious civil
      proceedings and 850 in debt collection. */
  lemma AboveTableTakesLastRow(value: real)
    requires 2000000.0 < value
    ensures RowIndex(TableGkg, value) == 9
    ensures CourtFee(value, Zivil) == 7200.0 && CourtFee(value, Schuld) == 850.0
  {
  }

  /** In every kind of proceeding a larger amount never gives a smaller fee. */
  lemma CourtFeeMonotone(x: real, y: real, column: GkgColumn)
    requires x <= y
    ensures CourtFee(x, column) <= CourtFee(y, column)
  {
    ColumnsNonDecreasing(column);
    RowFeeMonotone(TableGkg, x, y, column);
  }

  /** With a non-decreasing column the fee read for a larger amount is never
      smaller. */
  lemma RowFeeMonotone(table: seq<GkgFeeStep>, x: real, y: real, column: GkgColumn)
    requires |table| > 0 && NonDecreasing(ColumnFees(table, column)) && x <= y
    ensures ColumnFee(table[RowIndex(table, x)], column) <= ColumnFee(table[RowIndex(table, y)], column)
  {
    var fees := ColumnFees(table, column);
    var i, j := RowIndex(table, x), RowIndex(table, y);
    RowIndexMonotone(table, x, y);
    assert fees[i] <= fees[j];
  }

  /** A larger amount never reads an earlier row. */
  lemma RowIndexMonotone(table: seq<GkgFeeStep>, x: real, y: real)
    requires |table| > 0 && x <= y
    ensures RowIndex(table, x) <= RowIndex(table, y)
  {
    FirstAtLeastMonotone(GkgLimits(table), x, y);
  }

  /** There are five columns, and each names its own field: in the row up to
      100,000 the five fees all differ. */
  lemma ColumnsNameTheFields(c: GkgColumn, d: GkgColumn)
    ensures |AllColumns| == 5 && c in AllColumns
    ensures c != d ==> ColumnFee(TableGkg[6], c) != ColumnFee(TableGkg[6], d)
  {
    var a := {Zivil, Schuld};
    var b := {Ausserstreit, Exekution, Sicherung};
    assert |a| == 2 && |b| == 3 && a * b == {} && AllColumns == a + b;
  }
}
