/** The fee-resolution engine: table lookup, linear steps, two percentage
    tiers and caps turn a disputed amount into a base fee per tariff post,
    and `CalculateFees` layers multiplier, unit rate, co-party surcharge and
    VAT on top of it. Money is an exact `real`; nothing is rounded. */
module FeeLogic {
  import opened Brackets
  import opened Fees

  datatype Option<T> = None | Some(value: T)

  /** The cap argument of the resolvers. `NoCap` stands for `Infinity`, which
      `Math.min` leaves without effect. */
  datatype Cap = NoCap | CapAt(amount: real)

  /** 8.1% value added tax. */
  const VatRate: real := 0.081
  /** 10% surcharge for representing co-parties ("Genossen"). */
  const GenossenSurcharge: real := 0.10

  function Min(a: real, b: real): (m: real)
    ensures m <= a && m <= b && (m == a || m == b)
  {
    if a <= b then a else b
  }

  /** `Math.min(x, cap)`: the cap wins whenever it is lower, and nothing else
      changes the amount. */
  function ApplyCap(x: real, cap: Cap): (r: real)
    ensures r <= x
    ensures cap.CapAt? ==> r <= cap.amount
    ensures cap.NoCap? || x <= cap.amount ==> r == x
    ensures cap.CapAt? && cap.amount < x ==> r == cap.amount
  {
    match cap
    case NoCap => x
    case CapAt(c) => Min(x, c)
  }

  /** `Math.ceil`, the number of started blocks. */
  function Ceil(x: real): (n: int)
    ensures x <= n as real < x + 1.0
  {
    -((-x).Floor)
  }

  /** A quotient in (n - 1, n] has started exactly n blocks. */
  lemma CeilOfStartedBlock(x: real, n: int)
    requires (n - 1) as real < x <= n as real
    ensures Ceil(x) == n
  {
  }

  lemma CeilMonotone(x: real, y: real)
    requires x <= y
    ensures Ceil(x) <= Ceil(y)
  {
  }

  /** The fee of the first step whose limit is at least `value`, or `None` when
      `value` lies above every limit. */
  function TableFee(table: seq<FeeStep>, value: real): Option<real>
  {
    TableFeeFrom(table, value, 0)
  }

  /** The same search, starting at step `k`. */
  function TableFeeFrom(table: seq<FeeStep>, value: real, k: nat): Option<real>
    decreases |table| - k
  {
    if k >= |table| then None
    else if value <= table[k].limit then Some(table[k].fee)
    else TableFeeFrom(table, value, k + 1)
  }

  /** The search from `k` stops at the first step `i` whose limit covers the value. */
  lemma {:induction false} TableFeeFromFirstCovering(table: seq<FeeStep>, value: real, k: nat, i: nat)
    requires k <= i < |table| && value <= table[i].limit
    requires forall j :: k <= j < i ==> table[j].limit < value
    ensures TableFeeFrom(table, value, k) == Some(table[i].fee)
    decreases i - k
  {
    if k < i {
      TableFeeFromFirstCovering(table, value, k + 1, i);
    }
  }

  /** When the search from `k` finds a fee, it is that of a step `i` whose limit
      covers the value while no earlier step's limit does. */
  lemma {:induction false} TableFeeFromFound(table: seq<FeeStep>, value: real, k: nat) returns (i: nat)
    requires TableFeeFrom(table, value, k).Some?
    ensures k <= i < |table| && value <= table[i].limit
    ensures forall j :: k <= j < i ==> table[j].limit < value
    ensures TableFeeFrom(table, value, k) == Some(table[i].fee)
    decreases |table| - k
  {
    if value <= table[k].limit {
      i := k;
    } else {
      i := TableFeeFromFound(table, value, k + 1);
    }
  }

  /** The search from `k` finds nothing exactly when every limit from `k` on lies
      below the value. */
  lemma {:induction false} TableFeeFromNone(table: seq<FeeStep>, value: real, k: nat)
    requires k <= |table|
    ensures TableFeeFrom(table, value, k).None? <==> forall j :: k <= j < |table| ==> table[j].limit < value
    decreases |table| - k
  {
    if k < |table| {
      TableFeeFromNone(table, value, k + 1);
    }
  }

  /** The lookup agrees with the bracket reading of the limits: the fee of the
      step at `FirstAtLeast`, or nothing when that index runs off the table. */
  lemma TableFeeIsFirstCovering(table: seq<FeeStep>, value: real)
    ensures TableFee(table, value)
         == (var i := FirstAtLeast(Limits(table), value); if i < |table| then Some(table[i].fee) else None)
  {
    var i := FirstAtLeast(Limits(table), value);
    if i < |table| {
      TableFeeFromFirstCovering(table, value, 0, i);
    } else {
      TableFeeFromNone(table, value, 0);
    }
  }

  /** The `for (const step of table)` scan with its early return. */
  method ScanTable(table: seq<FeeStep>, value: real) returns (found: Option<real>)
    ensures found == TableFee(table, value)
  {
    for i := 0 to |table|
      invariant TableFee(table, value) == TableFeeFrom(table, value, i)
    {
      if value <= table[i].limit {
        return Some(table[i].fee);
      }
    }
    return None;
  }

  /** getStandardFee: the table, then +stepInc per started 20,000 above
      140,000 up to 500,000, then a first percentage tier up to 5,000,000 and
      a second one above it; the cap is applied in the percentage tiers only. */
  function StandardFee(value: real, table: seq<FeeStep>, stepInc: real, pctHigh: real,
                       pctSuperHigh: real, maxCap: Cap): real
    requires |table| > 0
  {
    match TableFee(table, value)
    case Some(fee) => fee
    case None => StandardFeeAboveTable(value, table, stepInc, pctHigh, pctSuperHigh, maxCap)
  }

  /** The formula part of getStandardFee, reached when the scan found no step. */
  function StandardFeeAboveTable(value: real, table: seq<FeeStep>, stepInc: real, pctHigh: real,
                                 pctSuperHigh: real, maxCap: Cap): real
    requires |table| > 0
  {
    var lastTableStep := table[|table| - 1];
    if value <= 500000.0 then
      var excess := value - 140000.0;
      var steps := Ceil(excess / 20000.0);
      lastTableStep.fee + steps as real * stepInc
    else
      var stepsTo500k := Ceil((500000.0 - 140000.0) / 20000.0);
      var feeAt500k := lastTableStep.fee + stepsTo500k as real * stepInc;
      if value <= 5000000.0 then
        var excess := value - 500000.0;
        ApplyCap(feeAt500k + excess * pctHigh, maxCap)
      else
        var feeAt5Mio := feeAt500k + 4500000.0 * pctHigh;
        var excess := value - 5000000.0;
        ApplyCap(feeAt5Mio + excess * pctSuperHigh, maxCap)
  }

  method GetStandardFee(value: real, table: seq<FeeStep>, stepInc: real, pctHigh: real,
                        pctSuperHigh: real, maxCap: Cap) returns (fee: real)
    requires |table| > 0
    ensures fee == StandardFee(value, table, stepInc, pctHigh, pctSuperHigh, maxCap)
  {
    var tableFee := ScanTable(table, value);
    if tableFee.Some? {
      return tableFee.value;
    }
    return StandardFeeAboveTable(value, table, stepInc, pctHigh, pctSuperHigh, maxCap);
  }

  /** getScaledFee: the table, then +stepInc per started 20,000 above the
      table's last limit, capped. Table fees are never capped. */
  function ScaledFee(value: real, table: seq<FeeStep>, stepInc: real, maxCap: Cap): real
    requires |table| > 0
  {
    match TableFee(table, value)
    case Some(fee) => fee
    case None => ScaledFeeAboveTable(value, table, stepInc, maxCap)
  }

  /** The formula part of getScaledFee, reached when the scan found no step. */
  function ScaledFeeAboveTable(value: real, table: seq<FeeStep>, stepInc: real, maxCap: Cap): real
    requires |table| > 0
  {
    var lastStep := table[|table| - 1];
    var excess := value - lastStep.limit;
    var steps := Ceil(excess / 20000.0);
    ApplyCap(lastStep.fee + steps as real * stepInc, maxCap)
  }

  method GetScaledFee(value: real, table: seq<FeeStep>, stepInc: real, maxCap: Cap) returns (fee: real)
    requires |table| > 0
    ensures fee == ScaledFee(value, table, stepInc, maxCap)
  {
    var tableFee := ScanTable(table, value);
    if tableFee.Some? {
      return tableFee.value;
    }
    return ScaledFeeAboveTable(value, table, stepInc, maxCap);
  }

  /** getBaseFee: the fee of one unit of a tariff post. TP6 and TP7 are built
      from the uncapped TP5 fee, multiplied first and capped afterwards. */
  function BaseFee(value: real, post: TarifPosten): real
  {
    match post
    case TP5 => ScaledFee(value, TableTp5, 17.0, CapAt(100.0))
    case TP6 => Min(ScaledFee(value, TableTp5, 17.0, NoCap) * 2.0, 330.0)
    case TP7 => Min(ScaledFee(value, TableTp5, 17.0, NoCap) * 4.0, 440.0)
    case TP8 => ScaledFee(value, TableTp8, 15.0, CapAt(600.0))
    case TP9 => 75.0
    case TP1 => StandardFee(value, TableTp1, 17.0, 0.0001, 0.00005, NoCap)
    case TP2 => StandardFee(value, TableTp2, 80.0, 0.0005, 0.00025, NoCap)
    case TP3A => StandardFee(value, TableTp3a, 159.0, 0.01, 0.005, NoCap)
    case TP3B => StandardFee(value, TableTp3b, 198.0, 0.0125, 0.00625, NoCap)
    case TP3C => StandardFee(value, TableTp3c, 238.0, 0.015, 0.0075, NoCap)
  }

  method GetBaseFee(value: real, post: TarifPosten) returns (fee: real)
    ensures fee == BaseFee(value, post)
  {
    match post {
      case TP5 =>
        fee := GetScaledFee(value, TableTp5, 17.0, CapAt(100.0));
      case TP6 =>
        var tp5Raw := GetScaledFee(value, TableTp5, 17.0, NoCap);
        fee := Min(tp5Raw * 2.0, 330.0);
      case TP7 =>
        var tp7Raw := GetScaledFee(value, TableTp5, 17.0, NoCap);
        fee := Min(tp7Raw * 4.0, 440.0);
      case TP8 =>
        fee := GetScaledFee(value, TableTp8, 15.0, CapAt(600.0));
      case TP9 =>
        fee := 75.0;
      case TP1 =>
        fee := GetStandardFee(value, TableTp1, 17.0, 0.0001, 0.00005, NoCap);
      case TP2 =>
        fee := GetStandardFee(value, TableTp2, 80.0, 0.0005, 0.00025, NoCap);
      case TP3A =>
        fee := GetStandardFee(value, TableTp3a, 159.0, 0.01, 0.005, NoCap);
      case TP3B =>
        fee := GetStandardFee(value, TableTp3b, 198.0, 0.0125, 0.00625, NoCap);
      case TP3C =>
        fee := GetStandardFee(value, TableTp3c, 238.0, 0.015, 0.0075, NoCap);
    }
  }

  /** The flags a result echoes back. */
  datatype FeeConfig = FeeConfig(hasUnitRate: bool, hasSurcharge: bool, isForeign: bool, isTimeBased: bool)

  datatype FeeResult = FeeResult(
    baseFee: real,
    unitRateAmount: real,
    surchargeAmount: real,
    netTotal: real,
    vatAmount: real,
    grossTotal: real,
    config: FeeConfig)

  /** Posts billed per started time unit. */
  predicate IsTimeBased(post: TarifPosten) {
    post == TP7 || post == TP8 || post == TP9
  }

  /** The unit rate ("Einheitssatz") depends on the disputed amount, not on the fee. */
  function UnitRatePercentage(value: real): real {
    if value <= 15000.0 then 0.50 else 0.40
  }

  /** The amounts calculateFees returns for a multiplied base fee, in the
      order the source computes them: unit rate on the base, surcharge on base
      plus unit rate, net total, VAT on the net total, gross total. */
  function Itemize(totalBase: real, value: real, post: TarifPosten,
                   hasUnitRate: bool, hasSurcharge: bool, isForeign: bool): FeeResult
  {
    var unitRateAmount := if hasUnitRate then totalBase * UnitRatePercentage(value) else 0.0;
    var surchargeAmount := if hasSurcharge then (totalBase + unitRateAmount) * GenossenSurcharge else 0.0;
    var netTotal := totalBase + unitRateAmount + surchargeAmount;
    var vatAmount := if isForeign then 0.0 else netTotal * VatRate;
    FeeResult(totalBase, unitRateAmount, surchargeAmount, netTotal, vatAmount, netTotal + vatAmount,
              FeeConfig(hasUnitRate, hasSurcharge, isForeign, IsTimeBased(post)))
  }

  /** The result for `multiplier` units of a single fee. */
  function FeesFor(singleFee: real, multiplier: real, value: real, post: TarifPosten,
                   hasUnitRate: bool, hasSurcharge: bool, isForeign: bool): FeeResult
  {
    Itemize(singleFee * multiplier, value, post, hasUnitRate, hasSurcharge, isForeign)
  }

  /** calculateFees: the fee of one unit from getBaseFee, multiplied, with the
      unit rate, surcharge and VAT layered on it. */
  method CalculateFees(value: real, post: TarifPosten, multiplier: real,
                       hasUnitRate: bool, hasSurcharge: bool, isForeign: bool) returns (r: FeeResult)
    ensures r == FeesFor(BaseFee(value, post), multiplier, value, post, hasUnitRate, hasSurcharge, isForeign)
  {
    var singleUnitFee := GetBaseFee(value, post);
    r := LayerFees(singleUnitFee, multiplier, value, post, hasUnitRate, hasSurcharge, isForeign);
  }

  /** The rest of calculateFees once the fee of one unit is known, step by
      step as the source computes it. */
  method LayerFees(singleUnitFee: real, multiplier: real, value: real, post: TarifPosten,
                   hasUnitRate: bool, hasSurcharge: bool, isForeign: bool) returns (r: FeeResult)
    ensures r == FeesFor(singleUnitFee, multiplier, value, post, hasUnitRate, hasSurcharge, isForeign)
  {
    var isTimeBased := post == TP7 || post == TP8 || post == TP9;
    var totalBase := singleUnitFee * multiplier;
    ghost var spec := Itemize(totalBase, value, post, hasUnitRate, hasSurcharge, isForeign);

    var unitRateAmount := 0.0;
    if hasUnitRate {
      var percentage := if value <= 15000.0 then 0.50 else 0.40;
      unitRateAmount := totalBase * percentage;
    }
    assert unitRateAmount == spec.unitRateAmount;

    var subTotalForSurcharge := totalBase + unitRateAmount;

    var surchargeAmount := 0.0;
    if hasSurcharge {
      surchargeAmount := subTotalForSurcharge * GenossenSurcharge;
    }
    assert surchargeAmount == spec.surchargeAmount;

    var netTotal := totalBase + unitRateAmount + surchargeAmount;
    var vatAmount := if isForeign then 0.0 else netTotal * VatRate;
    assert netTotal == spec.netTotal;
    assert vatAmount == spec.vatAmount;
    var grossTotal := netTotal + vatAmount;

    r := FeeResult(totalBase, unitRateAmount, surchargeAmount, netTotal, vatAmount, grossTotal,
                   FeeConfig(hasUnitRate, hasSurcharge, isForeign, isTimeBased));
  }
}
