/** The TP1 parameter set (simple pleadings and insolvency claims): its own
    copy of the table, the step increment, the two percentage rates and the
    maximum fee. */
module Tp1 {
  import opened Fees
  import opened FeeLogic
  import opened StandardFeeProps

  const Table: seq<FeeStep> := [
    FeeStep(500.0, 17.0), FeeStep(1000.0, 25.0), FeeStep(1500.0, 32.0), FeeStep(2500.0, 37.0),
    FeeStep(5000.0, 40.0), FeeStep(10000.0, 49.0), FeeStep(15000.0, 64.0), FeeStep(25000.0, 72.0),
    FeeStep(50000.0, 80.0), FeeStep(75000.0, 96.0), FeeStep(100000.0, 119.0), FeeStep(140000.0, 159.0)]

  /** Added per started 20,000 above 140,000 up to 500,000. */
  const StepIncrement: real := 17.0
  /** 0.1 per mille of the excess above 500,000. */
  const PctHigh: real := 0.0001
  /** 0.05 per mille of the excess above 5,000,000. */
  const PctSuperHigh: real := 0.00005
  const MaxCap: real := 1426.0

  /** getStandardFee with this parameter set, cap included. */
  function Fee(value: real): real {
    StandardFee(value, Table, StepIncrement, PctHigh, PctSuperHigh, CapAt(MaxCap))
  }

  /** The table is the one in fees.ts, with strictly ascending limits and fees. */
  lemma TableAsInFees()
    ensures Table == TableTp1 && StrictTable(Table) && AscendingTable(Table)
  {
    TableTp1IsStrict();
  }

  /** getBaseFee uses this table, increment and both rates, but no cap. */
  lemma LogicUsesTheseRates(value: real)
    ensures BaseFee(value, TP1) == StandardFee(value, Table, StepIncrement, PctHigh, PctSuperHigh, NoCap)
  {
  }

  /** 465 at 500,000, 1165 at 10,000,000 (below the cap), exactly the cap at
      100,000,000. */
  lemma KeyValues()
    ensures FeeAt500k(Table, StepIncrement) == 465.0 && FeeAt500k(Table, StepIncrement) <= MaxCap
    ensures Fee(10000000.0) == 1165.0
    ensures Fee(100000000.0) == MaxCap
  {
    TableAsInFees();
    StandardSecondTier(10000000.0, Table, StepIncrement, PctHigh, PctSuperHigh, CapAt(MaxCap));
    StandardSecondTier(100000000.0, Table, StepIncrement, PctHigh, PctSuperHigh, CapAt(MaxCap));
  }

  /** getBaseFee applies no cap: at 100,000,000 it returns 5665, far above
      the maximum fee. */
  lemma LogicIgnoresCap()
    ensures BaseFee(100000000.0, TP1) == 5665.0 && MaxCap < 5665.0
  {
    TableAsInFees();
    StandardSecondTier(100000000.0, Table, StepIncrement, PctHigh, PctSuperHigh, NoCap);
  }

  /** With the cap the fee never falls as the amount grows. */
  lemma FeeMonotone(x: real, y: real)
    requires x <= y
    ensures Fee(x) <= Fee(y)
  {
    TableAsInFees();
    StandardMonotone(x, y, Table, StepIncrement, PctHigh, PctSuperHigh, CapAt(MaxCap));
  }

  /** With the cap the fee never exceeds it. */
  lemma FeeAtMostCap(value: real)
    ensures Fee(value) <= MaxCap
  {
    TableAsInFees();
    var above := if value <= 500000.0 then 500001.0 else value;
    FeeMonotone(value, above);
    StandardCapped(above, Table, StepIncrement, PctHigh, PctSuperHigh, CapAt(MaxCap));
  }
}
