/** Properties of getScaledFee: table fees are returned as they stand, above
    the table every started 20,000 adds one increment, and the cap applies to
    that part only. */
module ScaledFeeProps {
  import opened Brackets
  import opened Fees
  import opened FeeLogic
  import opened TableLookup
  import opened FeeArith

  /** Table regime: a value in the bracket of step k gets that step's fee,
      even when the cap lies below it. */
  lemma ScaledTableRegime(value: real, table: seq<FeeStep>, stepInc: real, maxCap: Cap, k: nat)
    requires Increasing(Limits(table)) && k < |table|
    requires (k == 0 || table[k - 1].limit < value) && value <= table[k].limit
    ensures ScaledFee(value, table, stepInc, maxCap) == table[k].fee
  {
    TableFeeInBracket(table, value, k);
  }

  /** Above the table the fee is the last table fee plus `stepInc` per started
      20,000 above the last limit, capped. */
  lemma ScaledBlockFormula(value: real, table: seq<FeeStep>, stepInc: real, maxCap: Cap)
    requires |table| > 0 && Increasing(Limits(table))
    requires Last(table).limit < value
    ensures ScaledFee(value, table, stepInc, maxCap)
         == ApplyCap(Last(table).fee + Ceil((value - Last(table).limit) / 20000.0) as real * stepInc, maxCap)
  {
    TableFeeNoneIffAboveLast(table, value);
  }

  /** A value in the n-th started block of 20,000 above the last limit gets
      the last table fee plus n increments, capped. */
  lemma ScaledBlockRegime(value: real, table: seq<FeeStep>, stepInc: real, maxCap: Cap, n: int)
    requires |table| > 0 && Increasing(Limits(table)) && 1 <= n
    requires Last(table).limit + (n - 1) as real * 20000.0 < value <= Last(table).limit + n as real * 20000.0
    ensures ScaledFee(value, table, stepInc, maxCap) == ApplyCap(Last(table).fee + n as real * stepInc, maxCap)
  {
    ScaledBlockFormula(value, table, stepInc, maxCap);
    CeilOfStartedBlock((value - Last(table).limit) / 20000.0, n);
  }

  /** Above the table the fee never exceeds the cap. */
  lemma ScaledCapped(value: real, table: seq<FeeStep>, stepInc: real, maxCap: Cap)
    requires |table| > 0 && Increasing(Limits(table))
    requires Last(table).limit < value && maxCap.CapAt?
    ensures ScaledFee(value, table, stepInc, maxCap) <= maxCap.amount
  {
    ScaledBlockFormula(value, table, stepInc, maxCap);
  }

  /** The cap acts outside the table only: within it the fee is the uncapped
      one, above it the uncapped fee cut down to the cap. */
  lemma ScaledCapOutside(value: real, table: seq<FeeStep>, stepInc: real, maxCap: Cap)
    requires |table| > 0 && Increasing(Limits(table))
    ensures value <= Last(table).limit ==>
              ScaledFee(value, table, stepInc, maxCap) == ScaledFee(value, table, stepInc, NoCap)
    ensures Last(table).limit < value ==>
              ScaledFee(value, table, stepInc, maxCap) == ApplyCap(ScaledFee(value, table, stepInc, NoCap), maxCap)
  {
    TableFeeNoneIffAboveLast(table, value);
  }

  /** Without a cap, above the table the fee starts above the last table fee
      and never falls. */
  lemma ScaledUncappedAboveTable(x: real, y: real, table: seq<FeeStep>, stepInc: real)
    requires |table| > 0 && Increasing(Limits(table)) && 0.0 <= stepInc
    requires Last(table).limit < x <= y
    ensures Last(table).fee <= ScaledFee(x, table, stepInc, NoCap) <= ScaledFee(y, table, stepInc, NoCap)
  {
    ScaledBlockFormula(x, table, stepInc, NoCap);
    ScaledBlockFormula(y, table, stepInc, NoCap);
    var qx := (x - Last(table).limit) / 20000.0;
    var qy := (y - Last(table).limit) / 20000.0;
    CeilMonotone(qx, qy);
    ScaledBetween(Last(table).fee, Ceil(qx) as real, Ceil(qy) as real, Ceil(qy) as real, stepInc,
                  ScaledFee(x, table, stepInc, NoCap), ScaledFee(y, table, stepInc, NoCap));
  }

  /** Without a cap, with an ascending table and a non-negative increment, the
      fee never falls as the disputed amount grows. */
  lemma ScaledUncappedMonotone(x: real, y: real, table: seq<FeeStep>, stepInc: real)
    requires AscendingTable(table) && 0.0 <= stepInc && x <= y
    ensures ScaledFee(x, table, stepInc, NoCap) <= ScaledFee(y, table, stepInc, NoCap)
  {
    TableFeeNoneIffAboveLast(table, x);
    TableFeeNoneIffAboveLast(table, y);
    if y <= Last(table).limit {
      TableFeeMonotone(table, x, y);
    } else if x <= Last(table).limit {
      TableFeeMonotone(table, x, x);
      ScaledUncappedAboveTable(y, y, table, stepInc);
    } else {
      ScaledUncappedAboveTable(x, y, table, stepInc);
    }
  }

  /** With a cap no lower than the last table fee (or none) the fee still never
      falls; a lower cap would make it drop just above the table. */
  lemma ScaledMonotone(x: real, y: real, table: seq<FeeStep>, stepInc: real, maxCap: Cap)
    requires AscendingTable(table) && 0.0 <= stepInc && x <= y
    requires maxCap.NoCap? || Last(table).fee <= maxCap.amount
    ensures ScaledFee(x, table, stepInc, maxCap) <= ScaledFee(y, table, stepInc, maxCap)
  {
    var fx := ScaledFee(x, table, stepInc, NoCap);
    var fy := ScaledFee(y, table, stepInc, NoCap);
    ScaledUncappedMonotone(x, y, table, stepInc);
    ScaledCapOutside(x, table, stepInc, maxCap);
    ScaledCapOutside(y, table, stepInc, maxCap);
    if x <= Last(table).limit < y {
      TableFeeNoneIffAboveLast(table, x);
      TableFeeMonotone(table, x, x);
      ScaledUncappedAboveTable(y, y, table, stepInc);
      CapKeepsFloor(Last(table).fee, fy, maxCap);
    } else {
      ApplyCapMonotone(fx, fy, maxCap);
    }
  }
}
