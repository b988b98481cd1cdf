/** The TP2 parameter set (dunning proceedings, divorce, enforcement): its own copy of the table, the step increment, the two
    percentage rates and the maximum fee. */
module Tp2 {
  import opened Fees
  import opened FeeLogic
  import opened StandardFeeProps

  const Table: seq<FeeStep> := [
    FeeStep(500.0, 80.0), FeeStep(1000.0, 119.0), FeeStep(1500.0, 159.0), FeeStep(2500.0, 175.0),
    FeeStep(5000.0, 198.0), FeeStep(10000.0, 238.0), FeeStep(15000.0, 317.0), FeeStep(25000.0, 357.0),
    FeeStep(50000.0, 396.0), FeeStep(75000.0, 476.0), FeeStep(100000.0, 594.0), FeeStep(140000.0, 792.0)]

  /** Added per started 20,000 above 140,000 up to 500,000. */
  const StepIncrement: real := 80.0
  /** 0.5 per mille of the excess above 500,000. */
  const PctHigh: real := 0.0005
  /** 0.25 per mille of the excess above 5,000,000. */
  const PctSuperHigh: real := 0.00025
  const MaxCap: real := 7128.0

  /** getStandardFee with this parameter set, cap included. */
  function Fee(value: real): real {
    StandardFee(value, Table, StepIncrement, PctHigh, PctSuperHigh, CapAt(MaxCap))
  }

  /** The table is the one in fees.ts, with strictly ascending limits and fees. */
  lemma TableAsInFees()
    ensures Table == TableTp2 && StrictTable(Table) && AscendingTable(Table)
  {
    TableTp2IsStrict();
  }

  /** getBaseFee uses this table, increment and both rates, but no cap. */
  lemma LogicUsesTheseRates(value: real)
    ensures BaseFee(value, TP2) == StandardFee(value, Table, StepIncrement, PctHigh, PctSuperHigh, NoCap)
  {
  }

  /** 2232 at 500,000, 4482 at 5,000,000 (below the cap), exactly the cap
      at 100,000,000. */
  lemma KeyValues()
    ensures FeeAt500k(Table, StepIncrement) == 2232.0 && FeeAt500k(Table, StepIncrement) <= MaxCap
    ensures Fee(5000000.0) == 4482.0
    ensures Fee(100000000.0) == MaxCap
  {
    TableAsInFees();
    StandardFirstTier(5000000.0, Table, StepIncrement, PctHigh, PctSuperHigh, CapAt(MaxCap));
    StandardSecondTier(100000000.0, Table, StepIncrement, PctHigh, PctSuperHigh, CapAt(MaxCap));
  }

  /** getBaseFee applies no cap: at 100,000,000 it returns 28232, far above
      the maximum fee. */
  lemma LogicIgnoresCap()
    ensures BaseFee(100000000.0, TP2) == 28232.0 && MaxCap < 28232.0
  {
    TableAsInFees();
    StandardSecondTier(100000000.0, Table, StepIncrement, PctHigh, PctSuperHigh, NoCap);
  }

  /** With the cap the fee never falls as the amount grows. */
  lemma FeeMonotone(x: real, y: real)
    requires x <= y
    ensures Fee(x) <= Fee(y)
  {
    TableAsInFees();
    StandardMonotone(x, y, Table, StepIncrement, PctHigh, PctSuperHigh, CapAt(MaxCap));
  }

  /** With the cap the fee never exceeds it. */
  lemma FeeAtMostCap(value: real)
    ensures Fee(value) <= MaxCap
  {
    TableAsInFees();
    var above := if value <= 500000.0 then 500001.0 else value;
    FeeMonotone(value, above);
    StandardCapped(above, Table, StepIncrement, PctHigh, PctSuperHigh, CapAt(MaxCap));
  }
}
