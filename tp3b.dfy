/** The TP3B parameter set (appeals): its own copy of the table, the step increment, the two
    percentage rates and the maximum fee. */
module Tp3b {
  import opened Fees
  import opened FeeLogic
  import opened StandardFeeProps

  const Table: seq<FeeStep> := [
    FeeStep(500.0, 198.0), FeeStep(1000.0, 297.0), FeeStep(1500.0, 396.0), FeeStep(2500.0, 436.0),
    FeeStep(5000.0, 495.0), FeeStep(10000.0, 594.0), FeeStep(15000.0, 792.0), FeeStep(25000.0, 891.0),
    FeeStep(50000.0, 990.0), FeeStep(75000.0, 1188.0), FeeStep(100000.0, 1485.0), FeeStep(140000.0, 1980.0)]

  /** Added per started 20,000 above 140,000 up to 500,000. */
  const StepIncrement: real := 198.0
  /** 1.25 per mille of the excess above 500,000. */
  const PctHigh: real := 0.00125
  /** 0.625 per mille of the excess above 5,000,000. */
  const PctSuperHigh: real := 0.000625
  const MaxCap: real := 54000.0

  /** getStandardFee with this parameter set, cap included. */
  function Fee(value: real): real {
    StandardFee(value, Table, StepIncrement, PctHigh, PctSuperHigh, CapAt(MaxCap))
  }

  /** The table is the one in fees.ts, with strictly ascending limits and fees. */
  lemma TableAsInFees()
    ensures Table == TableTp3b && StrictTable(Table) && AscendingTable(Table)
  {
    TableTp3bIsStrict();
  }

  /** getBaseFee uses this table and increment but ten times both rates,
      and no cap. */
  lemma LogicUsesTheseRates(value: real)
    ensures BaseFee(value, TP3B) == StandardFee(value, Table, StepIncrement, 10.0 * PctHigh, 10.0 * PctSuperHigh, NoCap)
  {
  }

  /** 5544 at 500,000, 11169 at 5,000,000 (below the cap), exactly the cap
      at 100,000,000. */
  lemma KeyValues()
    ensures FeeAt500k(Table, StepIncrement) == 5544.0 && FeeAt500k(Table, StepIncrement) <= MaxCap
    ensures Fee(5000000.0) == 11169.0
    ensures Fee(100000000.0) == MaxCap
  {
    TableAsInFees();
    StandardFirstTier(5000000.0, Table, StepIncrement, PctHigh, PctSuperHigh, CapAt(MaxCap));
    StandardSecondTier(100000000.0, Table, StepIncrement, PctHigh, PctSuperHigh, CapAt(MaxCap));
  }

  /** getBaseFee applies no cap: at 100,000,000 it returns 655544, far above
      the maximum fee. */
  lemma LogicIgnoresCap()
    ensures BaseFee(100000000.0, TP3B) == 655544.0 && MaxCap < 655544.0
  {
    TableAsInFees();
    StandardSecondTier(100000000.0, Table, StepIncrement, 10.0 * PctHigh, 10.0 * PctSuperHigh, NoCap);
  }

  /** With the cap the fee never falls as the amount grows. */
  lemma FeeMonotone(x: real, y: real)
    requires x <= y
    ensures Fee(x) <= Fee(y)
  {
    TableAsInFees();
    StandardMonotone(x, y, Table, StepIncrement, PctHigh, PctSuperHigh, CapAt(MaxCap));
  }

  /** With the cap the fee never exceeds it. */
  lemma FeeAtMostCap(value: real)
    ensures Fee(value) <= MaxCap
  {
    TableAsInFees();
    var above := if value <= 500000.0 then 500001.0 else value;
    FeeMonotone(value, above);
    StandardCapped(above, Table, StepIncrement, PctHigh, PctSuperHigh, CapAt(MaxCap));
  }
}
