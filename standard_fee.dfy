/** Properties of getStandardFee: the four regimes, where the cap applies, and
    how the regimes join. */
module StandardFeeProps {
  import opened Brackets
  import opened Fees
  import opened FeeLogic
  import opened TableLookup
  import opened FeeArith

  /** The fee reached at 500,000: the last table fee plus 18 started blocks. */
  function FeeAt500k(table: seq<FeeStep>, stepInc: real): real
    requires |table| > 0
  {
    Last(table).fee + 18.0 * stepInc
  }

  /** The uncapped fee reached at 5,000,000. */
  function FeeAt5Mio(table: seq<FeeStep>, stepInc: real, pctHigh: real): real
    requires |table| > 0
  {
    FeeAt500k(table, stepInc) + 4500000.0 * pctHigh
  }

  /** Table regime: a value in the bracket of step k gets that step's fee,
      whatever the increment, rates and cap. */
  lemma StandardTableRegime(value: real, table: seq<FeeStep>, stepInc: real, pctHigh: real,
                            pctSuperHigh: real, maxCap: Cap, k: nat)
    requires Increasing(Limits(table)) && k < |table|
    requires (k == 0 || table[k - 1].limit < value) && value <= table[k].limit
    ensures StandardFee(value, table, stepInc, pctHigh, pctSuperHigh, maxCap) == table[k].fee
  {
    TableFeeInBracket(table, value, k);
  }

  /** Above the table and up to 500,000 the fee is the last table fee plus
      `stepInc` per started 20,000 above 140,000. */
  lemma StandardLinearFormula(value: real, table: seq<FeeStep>, stepInc: real, pctHigh: real,
                              pctSuperHigh: real, maxCap: Cap)
    requires |table| > 0 && Increasing(Limits(table))
    requires Last(table).limit < value <= 500000.0
    ensures StandardFee(value, table, stepInc, pctHigh, pctSuperHigh, maxCap)
         == Last(table).fee + Ceil((value - 140000.0) / 20000.0) as real * stepInc
  {
    TableFeeNoneIffAboveLast(table, value);
  }

  /** Linear regime: a value in the n-th started block of 20,000 above 140,000
      gets the last table fee plus n increments, and no cap applies. */
  lemma StandardLinearRegime(value: real, table: seq<FeeStep>, stepInc: real, pctHigh: real,
                             pctSuperHigh: real, maxCap: Cap, n: int)
    requires |table| > 0 && Increasing(Limits(table)) && Last(table).limit <= 140000.0
    requires 1 <= n <= 18
    requires 140000.0 + (n - 1) as real * 20000.0 < value <= 140000.0 + n as real * 20000.0
    ensures StandardFee(value, table, stepInc, pctHigh, pctSuperHigh, maxCap) == Last(table).fee + n as real * stepInc
  {
    StandardLinearFormula(value, table, stepInc, pctHigh, pctSuperHigh, maxCap);
    CeilOfStartedBlock((value - 140000.0) / 20000.0, n);
  }

  /** First percentage tier: above 500,000 and up to 5,000,000 the fee is the
      fee at 500,000 plus `pctHigh` of the excess, capped. */
  lemma StandardFirstTier(value: real, table: seq<FeeStep>, stepInc: real, pctHigh: real,
                          pctSuperHigh: real, maxCap: Cap)
    requires |table| > 0 && Increasing(Limits(table)) && Last(table).limit <= 500000.0
    requires 500000.0 < value <= 5000000.0
    ensures StandardFee(value, table, stepInc, pctHigh, pctSuperHigh, maxCap)
         == ApplyCap(FeeAt500k(table, stepInc) + (value - 500000.0) * pctHigh, maxCap)
  {
    TableFeeNoneIffAboveLast(table, value);
    CeilOfStartedBlock((500000.0 - 140000.0) / 20000.0, 18);
  }

  /** Second percentage tier: above 5,000,000 the fee is the uncapped fee at
      5,000,000 plus `pctSuperHigh` of the excess, capped. */
  lemma StandardSecondTier(value: real, table: seq<FeeStep>, stepInc: real, pctHigh: real,
                           pctSuperHigh: real, maxCap: Cap)
    requires |table| > 0 && Increasing(Limits(table)) && Last(table).limit <= 500000.0
    requires 5000000.0 < value
    ensures StandardFee(value, table, stepInc, pctHigh, pctSuperHigh, maxCap)
         == ApplyCap(FeeAt5Mio(table, stepInc, pctHigh) + (value - 5000000.0) * pctSuperHigh, maxCap)
  {
    TableFeeNoneIffAboveLast(table, value);
    CeilOfStartedBlock((500000.0 - 140000.0) / 20000.0, 18);
  }

  /** Above 500,000 the fee never exceeds the cap. */
  lemma StandardCapped(value: real, table: seq<FeeStep>, stepInc: real, pctHigh: real,
                       pctSuperHigh: real, maxCap: Cap)
    requires |table| > 0 && Increasing(Limits(table)) && Last(table).limit <= 500000.0
    requires 500000.0 < value && maxCap.CapAt?
    ensures StandardFee(value, table, stepInc, pctHigh, pctSuperHigh, maxCap) <= maxCap.amount
  {
    if value <= 5000000.0 {
      StandardFirstTier(value, table, stepInc, pctHigh, pctSuperHigh, maxCap);
    } else {
      StandardSecondTier(value, table, stepInc, pctHigh, pctSuperHigh, maxCap);
    }
  }

  /** The regimes join without jumps: the fee at 500,000 computed by the linear
      regime is the starting point of the first tier, and the uncapped fee at
      5,000,000 computed by the first tier is the starting point of the second. */
  lemma StandardNoJumps(table: seq<FeeStep>, stepInc: real, pctHigh: real, pctSuperHigh: real, maxCap: Cap)
    requires |table| > 0 && Increasing(Limits(table)) && Last(table).limit <= 140000.0
    ensures StandardFee(500000.0, table, stepInc, pctHigh, pctSuperHigh, maxCap) == FeeAt500k(table, stepInc)
    ensures StandardFee(5000000.0, table, stepInc, pctHigh, pctSuperHigh, NoCap) == FeeAt5Mio(table, stepInc, pctHigh)
  {
    StandardLinearRegime(500000.0, table, stepInc, pctHigh, pctSuperHigh, maxCap, 18);
    StandardFirstTier(5000000.0, table, stepInc, pctHigh, pctSuperHigh, NoCap);
  }

  /** The linear regime stays between the last table fee and the fee at
      500,000, and never falls. */
  lemma StandardLinearBounds(x: real, y: real, table: seq<FeeStep>, stepInc: real, pctHigh: real,
                             pctSuperHigh: real, maxCap: Cap)
    requires |table| > 0 && Increasing(Limits(table)) && Last(table).limit == 140000.0
    requires 0.0 <= stepInc
    requires 140000.0 < x <= y <= 500000.0
    ensures Last(table).fee <= StandardFee(x, table, stepInc, pctHigh, pctSuperHigh, maxCap)
    ensures StandardFee(x, table, stepInc, pctHigh, pctSuperHigh, maxCap)
         <= StandardFee(y, table, stepInc, pctHigh, pctSuperHigh, maxCap)
    ensures StandardFee(y, table, stepInc, pctHigh, pctSuperHigh, maxCap) <= FeeAt500k(table, stepInc)
  {
    StandardLinearFormula(x, table, stepInc, pctHigh, pctSuperHigh, maxCap);
    StandardLinearFormula(y, table, stepInc, pctHigh, pctSuperHigh, maxCap);
    var qx := (x - 140000.0) / 20000.0;
    var qy := (y - 140000.0) / 20000.0;
    CeilMonotone(qx, qy);
    CeilMonotone(qy, 18.0);
    CeilOfStartedBlock(18.0, 18);
    ScaledBetween(Last(table).fee, Ceil(qx) as real, Ceil(qy) as real, 18.0, stepInc,
                 StandardFee(x, table, stepInc, pctHigh, pctSuperHigh, maxCap),
                 StandardFee(y, table, stepInc, pctHigh, pctSuperHigh, maxCap));
  }

  /** The cap acts on the percentage tiers only: up to 500,000 the fee is the
      uncapped one, above it the uncapped fee cut down to the cap. */
  lemma StandardCapOutside(value: real, table: seq<FeeStep>, stepInc: real, pctHigh: real,
                           pctSuperHigh: real, maxCap: Cap)
    requires |table| > 0 && Increasing(Limits(table)) && Last(table).limit <= 500000.0
    ensures value <= 500000.0 ==>
              StandardFee(value, table, stepInc, pctHigh, pctSuperHigh, maxCap)
              == StandardFee(value, table, stepInc, pctHigh, pctSuperHigh, NoCap)
    ensures 500000.0 < value ==>
              StandardFee(value, table, stepInc, pctHigh, pctSuperHigh, maxCap)
              == ApplyCap(StandardFee(value, table, stepInc, pctHigh, pctSuperHigh, NoCap), maxCap)
  {
    TableFeeNoneIffAboveLast(table, value);
  }

  /** Without a cap the first tier starts at the fee at 500,000, never falls,
      and ends at the fee at 5,000,000. */
  lemma StandardFirstTierBounds(x: real, y: real, table: seq<FeeStep>, stepInc: real, pctHigh: real,
                                pctSuperHigh: real)
    requires |table| > 0 && Increasing(Limits(table)) && Last(table).limit <= 500000.0
    requires 0.0 <= pctHigh
    requires 500000.0 < x <= y <= 5000000.0
    ensures FeeAt500k(table, stepInc) <= StandardFee(x, table, stepInc, pctHigh, pctSuperHigh, NoCap)
    ensures StandardFee(x, table, stepInc, pctHigh, pctSuperHigh, NoCap)
         <= StandardFee(y, table, stepInc, pctHigh, pctSuperHigh, NoCap)
    ensures StandardFee(y, table, stepInc, pctHigh, pctSuperHigh, NoCap) <= FeeAt5Mio(table, stepInc, pctHigh)
  {
    StandardFirstTier(x, table, stepInc, pctHigh, pctSuperHigh, NoCap);
    StandardFirstTier(y, table, stepInc, pctHigh, pctSuperHigh, NoCap);
    ScaledBetween(FeeAt500k(table, stepInc), x - 500000.0, y - 500000.0, 4500000.0, pctHigh,
                  StandardFee(x, table, stepInc, pctHigh, pctSuperHigh, NoCap),
                  StandardFee(y, table, stepInc, pctHigh, pctSuperHigh, NoCap));
  }

  /** Without a cap the second tier starts at the fee at 5,000,000 and never
      falls. */
  lemma StandardSecondTierBounds(x: real, y: real, table: seq<FeeStep>, stepInc: real, pctHigh: real,
                                 pctSuperHigh: real)
    requires |table| > 0 && Increasing(Limits(table)) && Last(table).limit <= 500000.0
    requires 0.0 <= pctSuperHigh
    requires 5000000.0 < x <= y
    ensures FeeAt5Mio(table, stepInc, pctHigh) <= StandardFee(x, table, stepInc, pctHigh, pctSuperHigh, NoCap)
    ensures StandardFee(x, table, stepInc, pctHigh, pctSuperHigh, NoCap)
         <= StandardFee(y, table, stepInc, pctHigh, pctSuperHigh, NoCap)
  {
    StandardSecondTier(x, table, stepInc, pctHigh, pctSuperHigh, NoCap);
    StandardSecondTier(y, table, stepInc, pctHigh, pctSuperHigh, NoCap);
    ScaledBetween(FeeAt5Mio(table, stepInc, pctHigh), x - 5000000.0, y - 5000000.0, y - 5000000.0,
                  pctSuperHigh,
                  StandardFee(x, table, stepInc, pctHigh, pctSuperHigh, NoCap),
                  StandardFee(y, table, stepInc, pctHigh, pctSuperHigh, NoCap));
  }

  /** Above the table and without a cap, the fee never falls and never drops
      below the last table fee. */
  lemma StandardUncappedAboveTable(x: real, y: real, table: seq<FeeStep>, stepInc: real, pctHigh: real,
                                   pctSuperHigh: real)
    requires |table| > 0 && Increasing(Limits(table)) && Last(table).limit == 140000.0
    requires 0.0 <= stepInc && 0.0 <= pctHigh && 0.0 <= pctSuperHigh
    requires 140000.0 < x <= y
    ensures Last(table).fee <= StandardFee(x, table, stepInc, pctHigh, pctSuperHigh, NoCap)
    ensures StandardFee(x, table, stepInc, pctHigh, pctSuperHigh, NoCap)
         <= StandardFee(y, table, stepInc, pctHigh, pctSuperHigh, NoCap)
  {
    AddScaledMonotone(Last(table).fee, 0.0, 18.0, stepInc);
    if y <= 500000.0 {
      StandardLinearBounds(x, y, table, stepInc, pctHigh, pctSuperHigh, NoCap);
    } else if y <= 5000000.0 {
      StandardFirstTierBounds(y, y, table, stepInc, pctHigh, pctSuperHigh);
      if x <= 500000.0 {
        StandardLinearBounds(x, x, table, stepInc, pctHigh, pctSuperHigh, NoCap);
      } else {
        StandardFirstTierBounds(x, y, table, stepInc, pctHigh, pctSuperHigh);
      }
    } else {
      StandardSecondTierBounds(y, y, table, stepInc, pctHigh, pctSuperHigh);
      if x <= 500000.0 {
        StandardLinearBounds(x, x, table, stepInc, pctHigh, pctSuperHigh, NoCap);
        StandardFirstTierBounds(5000000.0, 5000000.0, table, stepInc, pctHigh, pctSuperHigh);
      } else if x <= 5000000.0 {
        StandardFirstTierBounds(x, x, table, stepInc, pctHigh, pctSuperHigh);
      } else {
        StandardSecondTierBounds(x, y, table, stepInc, pctHigh, pctSuperHigh);
      }
    }
  }

  /** Without a cap, with an ascending table ending at 140,000 and with
      non-negative increment and rates, the fee never falls as the disputed
      amount grows. */
  lemma StandardUncappedMonotone(x: real, y: real, table: seq<FeeStep>, stepInc: real, pctHigh: real,
                                 pctSuperHigh: real)
    requires AscendingTable(table) && Last(table).limit == 140000.0
    requires 0.0 <= stepInc && 0.0 <= pctHigh && 0.0 <= pctSuperHigh
    requires x <= y
    ensures StandardFee(x, table, stepInc, pctHigh, pctSuperHigh, NoCap)
         <= StandardFee(y, table, stepInc, pctHigh, pctSuperHigh, NoCap)
  {
    if x <= 140000.0 {
      TableFeeNoneIffAboveLast(table, x);
      TableFeeNoneIffAboveLast(table, y);
      if y <= 140000.0 {
        TableFeeMonotone(table, x, y);
      } else {
        TableFeeMonotone(table, x, x);
        StandardUncappedAboveTable(y, y, table, stepInc, pctHigh, pctSuperHigh);
      }
    } else {
      StandardUncappedAboveTable(x, y, table, stepInc, pctHigh, pctSuperHigh);
    }
  }

  /** With a cap no lower than the fee at 500,000 (or none) the fee still
      never falls; a lower cap would make it drop just above 500,000. */
  lemma StandardMonotone(x: real, y: real, table: seq<FeeStep>, stepInc: real, pctHigh: real,
                         pctSuperHigh: real, maxCap: Cap)
    requires AscendingTable(table) && Last(table).limit == 140000.0
    requires 0.0 <= stepInc && 0.0 <= pctHigh && 0.0 <= pctSuperHigh
    requires maxCap.NoCap? || FeeAt500k(table, stepInc) <= maxCap.amount
    requires x <= y
    ensures StandardFee(x, table, stepInc, pctHigh, pctSuperHigh, maxCap)
         <= StandardFee(y, table, stepInc, pctHigh, pctSuperHigh, maxCap)
  {
    var fx := StandardFee(x, table, stepInc, pctHigh, pctSuperHigh, NoCap);
    var fy := StandardFee(y, table, stepInc, pctHigh, pctSuperHigh, NoCap);
    StandardUncappedMonotone(x, y, table, stepInc, pctHigh, pctSuperHigh);
    StandardCapOutside(x, table, stepInc, pctHigh, pctSuperHigh, maxCap);
    StandardCapOutside(y, table, stepInc, pctHigh, pctSuperHigh, maxCap);
    if x <= 500000.0 && 500000.0 < y {
      StandardUncappedMonotone(x, 500000.0, table, stepInc, pctHigh, pctSuperHigh);
      StandardUncappedMonotone(500000.0, y, table, stepInc, pctHigh, pctSuperHigh);
      StandardNoJumps(table, stepInc, pctHigh, pctSuperHigh, NoCap);
      CapKeepsFloor(FeeAt500k(table, stepInc), fy, maxCap);
    } else {
      ApplyCapMonotone(fx, fy, maxCap);
    }
  }

  /** Without a cap and with positive rates the fee keeps growing above
      500,000: there is no ceiling. */
  lemma StandardStrictAbove500k(x: real, y: real, table: seq<FeeStep>, stepInc: real, pctHigh: real,
                                pctSuperHigh: real)
    requires |table| > 0 && Increasing(Limits(table)) && Last(table).limit <= 500000.0
    requires 0.0 < pctHigh && 0.0 < pctSuperHigh
    requires 500000.0 < x < y
    ensures StandardFee(x, table, stepInc, pctHigh, pctSuperHigh, NoCap)
          < StandardFee(y, table, stepInc, pctHigh, pctSuperHigh, NoCap)
  {
    var fx := StandardFee(x, table, stepInc, pctHigh, pctSuperHigh, NoCap);
    var fy := StandardFee(y, table, stepInc, pctHigh, pctSuperHigh, NoCap);
    var at500k := FeeAt500k(table, stepInc);
    if y <= 5000000.0 {
      StandardFirstTier(x, table, stepInc, pctHigh, pctSuperHigh, NoCap);
      StandardFirstTier(y, table, stepInc, pctHigh, pctSuperHigh, NoCap);
      StrictlyAbove(at500k, x - 500000.0, y - 500000.0, pctHigh, fx, fy);
    } else if x <= 5000000.0 {
      StandardFirstTier(x, table, stepInc, pctHigh, pctSuperHigh, NoCap);
      StandardSecondTier(y, table, stepInc, pctHigh, pctSuperHigh, NoCap);
      AddScaledMonotone(at500k, x - 500000.0, 4500000.0, pctHigh);
      StrictlyAbove(FeeAt5Mio(table, stepInc, pctHigh), 0.0, y - 5000000.0, pctSuperHigh,
                    FeeAt5Mio(table, stepInc, pctHigh), fy);
    } else {
      StandardSecondTier(x, table, stepInc, pctHigh, pctSuperHigh, NoCap);
      StandardSecondTier(y, table, stepInc, pctHigh, pctSuperHigh, NoCap);
      StrictlyAbove(FeeAt5Mio(table, stepInc, pctHigh), x - 5000000.0, y - 5000000.0, pctSuperHigh, fx, fy);
    }
  }
}
