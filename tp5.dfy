/** The TP5 parameter set (simple letters): its own copy of the table, the
    step increment and the maximum fee. */
module Tp5 {
  import opened Fees
  import opened FeeLogic
  import opened ScaledFeeProps

  const Table: seq<FeeStep> := [
    FeeStep(1000.0, 8.0), FeeStep(2500.0, 10.0), FeeStep(5000.0, 12.0),
    FeeStep(10000.0, 17.0), FeeStep(25000.0, 33.0), FeeStep(50000.0, 50.0)]

  /** Added per started 20,000 above 50,000. */
  const StepIncrement: real := 17.0
  const MaxCap: real := 100.0

  /** getScaledFee with this parameter set, cap included. */
  function Fee(value: real): real {
    ScaledFee(value, Table, StepIncrement, CapAt(MaxCap))
  }

  /** The table is the one in fees.ts: six strictly ascending steps ending at
      50,000. */
  lemma TableAsInFees()
    ensures Table == TableTp5 && StrictTable(Table) && AscendingTable(Table)
    ensures |Table| == 6 && Last(Table).limit == 50000.0
  {
    TableTp5IsStrict();
  }

  /** getBaseFee computes TP5 with exactly this increment and cap. */
  lemma LogicUsesTheseValues(value: real)
    ensures BaseFee(value, TP5) == Fee(value)
  {
  }

  /** Above the table: 67 up to 70,000, 84 up to 90,000, and the cap of 100
      for every larger amount. */
  lemma Ranges(value: real)
    ensures 50000.0 < value <= 70000.0 ==> Fee(value) == 67.0
    ensures 70000.0 < value <= 90000.0 ==> Fee(value) == 84.0
    ensures 90000.0 < value ==> Fee(value) == MaxCap
  {
    TableAsInFees();
    if 50000.0 < value <= 70000.0 {
      ScaledBlockRegime(value, Table, StepIncrement, CapAt(MaxCap), 1);
    } else if 70000.0 < value <= 90000.0 {
      ScaledBlockRegime(value, Table, StepIncrement, CapAt(MaxCap), 2);
    } else if 90000.0 < value {
      ScaledBlockFormula(value, Table, StepIncrement, CapAt(MaxCap));
      assert Ceil((value - 50000.0) / 20000.0) >= 3;
    }
  }

  /** Uncapped, TP5 reaches 101 at 100,000, so TP6 there is 202, below its
      own ceiling of 330. */
  lemma UncappedAtOneHundredThousand()
    ensures ScaledFee(100000.0, Table, StepIncrement, NoCap) == 101.0
    ensures BaseFee(100000.0, TP6) == 202.0
  {
    TableAsInFees();
    ScaledBlockRegime(100000.0, Table, StepIncrement, NoCap, 3);
  }

  /** With the cap the fee never falls as the amount grows. */
  lemma FeeMonotone(x: real, y: real)
    requires x <= y
    ensures Fee(x) <= Fee(y)
  {
    TableAsInFees();
    ScaledMonotone(x, y, Table, StepIncrement, CapAt(MaxCap));
  }

  /** With the cap the fee never exceeds it. */
  lemma FeeAtMostCap(value: real)
    ensures Fee(value) <= MaxCap
  {
    TableAsInFees();
    var above := if value <= 50000.0 then 50001.0 else value;
    FeeMonotone(value, above);
    ScaledCapped(above, Table, StepIncrement, CapAt(MaxCap));
  }
}
