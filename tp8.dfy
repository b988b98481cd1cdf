/** The TP8 parameter set (conferences and calls, per 30 minutes): its own
    copy of the table, the step increment and the maximum fee. */
module Tp8 {
  import opened Fees
  import opened FeeLogic
  import opened ScaledFeeProps

  const Table: seq<FeeStep> := [
    FeeStep(1000.0, 30.0), FeeStep(2500.0, 45.0), FeeStep(5000.0, 53.0),
    FeeStep(10000.0, 75.0), FeeStep(25000.0, 135.0)]

  /** Added per started 20,000 above 25,000. */
  const StepIncrement: real := 15.0
  const MaxCap: real := 600.0

  /** getScaledFee with this parameter set, cap included. */
  function Fee(value: real): real {
    ScaledFee(value, Table, StepIncrement, CapAt(MaxCap))
  }

  /** The table is the one in fees.ts: five strictly ascending steps ending at
      25,000. */
  lemma TableAsInFees()
    ensures Table == TableTp8 && StrictTable(Table) && AscendingTable(Table)
    ensures |Table| == 5 && Last(Table).limit == 25000.0
  {
    TableTp8IsStrict();
  }

  /** getBaseFee computes TP8 with exactly this increment and cap. */
  lemma LogicUsesTheseValues(value: real)
    ensures BaseFee(value, TP8) == Fee(value)
  {
  }

  /** Above the table: 150 up to 45,000, 585 at 625,000, and the cap of 600
      for every larger amount. */
  lemma Ranges(value: real)
    ensures 25000.0 < value <= 45000.0 ==> Fee(value) == 150.0
    ensures Fee(625000.0) == 585.0
    ensures 625000.0 < value ==> Fee(value) == MaxCap
  {
    TableAsInFees();
    ScaledBlockRegime(625000.0, Table, StepIncrement, CapAt(MaxCap), 30);
    if 25000.0 < value <= 45000.0 {
      ScaledBlockRegime(value, Table, StepIncrement, CapAt(MaxCap), 1);
    } else if 625000.0 < value {
      ScaledBlockFormula(value, Table, StepIncrement, CapAt(MaxCap));
      assert Ceil((value - 25000.0) / 20000.0) >= 31;
    }
  }

  /** With the cap the fee never falls as the amount grows. */
  lemma FeeMonotone(x: real, y: real)
    requires x <= y
    ensures Fee(x) <= Fee(y)
  {
    TableAsInFees();
    ScaledMonotone(x, y, Table, StepIncrement, CapAt(MaxCap));
  }

  /** With the cap the fee never exceeds it. */
  lemma FeeAtMostCap(value: real)
    ensures Fee(value) <= MaxCap
  {
    TableAsInFees();
    var above := if value <= 25000.0 then 25001.0 else value;
    FeeMonotone(value, above);
    ScaledCapped(above, Table, StepIncrement, CapAt(MaxCap));
  }
}
