/** The TP3C parameter set (appeals to the supreme court): its own copy of the table, the step increment, the two
    percentage rates and the maximum fee. */
module Tp3c {
  import opened Fees
  import opened FeeLogic
  import opened StandardFeeProps

  const Table: seq<FeeStep> := [
    FeeStep(500.0, 238.0), FeeStep(1000.0, 357.0), FeeStep(1500.0, 476.0), FeeStep(2500.0, 524.0),
    FeeStep(5000.0, 594.0), FeeStep(10000.0, 713.0), FeeStep(15000.0, 951.0), FeeStep(25000.0, 1070.0),
    FeeStep(50000.0, 1188.0), FeeStep(75000.0, 1426.0), FeeStep(100000.0, 1782.0), FeeStep(140000.0, 2376.0)]

  /** Added per started 20,000 above 140,000 up to 500,000. */
  const StepIncrement: real := 238.0
  /** 1.5 per mille of the excess above 500,000. */
  const PctHigh: real := 0.0015
  /** 0.75 per mille of the excess above 5,000,000. */
  const PctSuperHigh: real := 0.00075
  const MaxCap: real := 64800.0

  /** getStandardFee with this parameter set, cap included. */
  function Fee(value: real): real {
    StandardFee(value, Table, StepIncrement, PctHigh, PctSuperHigh, CapAt(MaxCap))
  }

  /** The table is the one in fees.ts, with strictly ascending limits and fees. */
  lemma TableAsInFees()
    ensures Table == TableTp3c && StrictTable(Table) && AscendingTable(Table)
  {
    TableTp3cIsStrict();
  }

  /** getBaseFee uses this table and increment but ten times both rates,
      and no cap. */
  lemma LogicUsesTheseRates(value: real)
    ensures BaseFee(value, TP3C) == StandardFee(value, Table, StepIncrement, 10.0 * PctHigh, 10.0 * PctSuperHigh, NoCap)
  {
  }

  /** 6660 at 500,000, 13410 at 5,000,000 (below the cap), exactly the cap
      at 100,000,000. */
  lemma KeyValues()
    ensures FeeAt500k(Table, StepIncrement) == 6660.0 && FeeAt500k(Table, StepIncrement) <= MaxCap
    ensures Fee(5000000.0) == 13410.0
    ensures Fee(100000000.0) == MaxCap
  {
    TableAsInFees();
    StandardFirstTier(5000000.0, Table, StepIncrement, PctHigh, PctSuperHigh, CapAt(MaxCap));
    StandardSecondTier(100000000.0, Table, StepIncrement, PctHigh, PctSuperHigh, CapAt(MaxCap));
  }

  /** getBaseFee applies no cap: at 100,000,000 it returns 786660, far above
      the maximum fee. */
  lemma LogicIgnoresCap()
    ensures BaseFee(100000000.0, TP3C) == 786660.0 && MaxCap < 786660.0
  {
    TableAsInFees();
    StandardSecondTier(100000000.0, Table, StepIncrement, 10.0 * PctHigh, 10.0 * PctSuperHigh, NoCap);
  }

  /** With the cap the fee never falls as the amount grows. */
  lemma FeeMonotone(x: real, y: real)
    requires x <= y
    ensures Fee(x) <= Fee(y)
  {
    TableAsInFees();
    StandardMonotone(x, y, Table, StepIncrement, PctHigh, PctSuperHigh, CapAt(MaxCap));
  }

  /** With the cap the fee never exceeds it. */
  lemma FeeAtMostCap(value: real)
    ensures Fee(value) <= MaxCap
  {
    TableAsInFees();
    var above := if value <= 500000.0 then 500001.0 else value;
    FeeMonotone(value, above);
    StandardCapped(above, Table, StepIncrement, PctHigh, PctSuperHigh, CapAt(MaxCap));
  }
}
