/** Properties of calculateFees: the accounting identities between the
    amounts it returns, a closed form for each of them, and the drop of the
    unit rate from 50% to 40% just above 15,000. */
module CalculationProps {
  import opened Fees
  import opened FeeLogic
  import opened BaseFeeProps

  function UnitRateFactor(value: real, hasUnitRate: bool): real {
    if hasUnitRate then UnitRatePercentage(value) else 0.0
  }

  function SurchargeFactor(hasSurcharge: bool): real {
    if hasSurcharge then GenossenSurcharge else 0.0
  }

  function VatFactor(isForeign: bool): real {
    if isForeign then 0.0 else VatRate
  }

  /** Every amount as a fixed multiple of the multiplied base fee: the gross
      total is that base times (1 + unit rate) * (1 + surcharge) * (1 + VAT),
      each factor zero when its flag is off. */
  function ClosedForm(base: real, value: real, post: TarifPosten,
                      hasUnitRate: bool, hasSurcharge: bool, isForeign: bool): FeeResult
  {
    var u := UnitRateFactor(value, hasUnitRate);
    var s := SurchargeFactor(hasSurcharge);
    var v := VatFactor(isForeign);
    FeeResult(base, base * u, base * (1.0 + u) * s, base * (1.0 + u) * (1.0 + s),
              base * (1.0 + u) * (1.0 + s) * v, base * (1.0 + u) * (1.0 + s) * (1.0 + v),
              FeeConfig(hasUnitRate, hasSurcharge, isForeign, IsTimeBased(post)))
  }

  lemma FactorsDistribute(base: real, u: real, s: real, v: real)
    ensures base * (1.0 + u) == base + base * u
    ensures base * (1.0 + u) * (1.0 + s) == base * (1.0 + u) + base * (1.0 + u) * s
    ensures base * (1.0 + u) * (1.0 + s) * (1.0 + v) == base * (1.0 + u) * (1.0 + s) + base * (1.0 + u) * (1.0 + s) * v
  {
  }

  lemma TimesChoice(x: real, b: bool, p: real, q: real)
    ensures x * (if b then p else q) == if b then x * p else x * q
  {
  }

  /** The step-by-step computation and the closed form agree on every amount. */
  lemma ItemizeIsClosedForm(base: real, value: real, post: TarifPosten,
                            hasUnitRate: bool, hasSurcharge: bool, isForeign: bool)
    ensures Itemize(base, value, post, hasUnitRate, hasSurcharge, isForeign)
         == ClosedForm(base, value, post, hasUnitRate, hasSurcharge, isForeign)
  {
    var u := UnitRateFactor(value, hasUnitRate);
    var s := SurchargeFactor(hasSurcharge);
    FactorsDistribute(base, u, s, VatFactor(isForeign));
    TimesChoice(base, hasUnitRate, UnitRatePercentage(value), 0.0);
    TimesChoice(base * (1.0 + u), hasSurcharge, GenossenSurcharge, 0.0);
    TimesChoice(base * (1.0 + u) * (1.0 + s), isForeign, 0.0, VatRate);
  }

  /** The accounting of one calculation: the base is the single fee times the
      multiplier; the unit rate is 50% of it up to 15,000 and 40% above, or
      nothing; the surcharge is 10% of base plus unit rate, or nothing; the net
      total is their sum; VAT is 8.1% of the net total, or nothing for a foreign
      client; the gross total is net plus VAT; the flags are echoed, and a post
      counts as time-based exactly when it is TP7, TP8 or TP9. */
  lemma Accounting(singleFee: real, multiplier: real, value: real, post: TarifPosten,
                   hasUnitRate: bool, hasSurcharge: bool, isForeign: bool)
    ensures var r := FeesFor(singleFee, multiplier, value, post, hasUnitRate, hasSurcharge, isForeign);
      && r.baseFee == singleFee * multiplier
      && r.unitRateAmount == (if !hasUnitRate then 0.0 else if value <= 15000.0 then 0.50 * r.baseFee else 0.40 * r.baseFee)
      && r.surchargeAmount == (if hasSurcharge then 0.10 * (r.baseFee + r.unitRateAmount) else 0.0)
      && r.netTotal == r.baseFee + r.unitRateAmount + r.surchargeAmount
      && r.vatAmount == (if isForeign then 0.0 else 0.081 * r.netTotal)
      && r.grossTotal == r.netTotal + r.vatAmount
      && r.config.hasUnitRate == hasUnitRate && r.config.hasSurcharge == hasSurcharge
      && r.config.isForeign == isForeign
      && (r.config.isTimeBased <==> post in {TP7, TP8, TP9})
  {
  }

  /** A foreign client pays no VAT: the gross total is the net total. */
  lemma ForeignPaysNoVat(singleFee: real, multiplier: real, value: real, post: TarifPosten,
                         hasUnitRate: bool, hasSurcharge: bool)
    ensures var r := FeesFor(singleFee, multiplier, value, post, hasUnitRate, hasSurcharge, true);
      r.vatAmount == 0.0 && r.grossTotal == r.netTotal
  {
  }

  /** With a non-negative base every amount is non-negative, and the totals
      lie between the base and 1.5 * 1.1 * 1.081 times the base. */
  lemma AmountsBounded(base: real, value: real, post: TarifPosten,
                       hasUnitRate: bool, hasSurcharge: bool, isForeign: bool)
    requires 0.0 <= base
    ensures var r := Itemize(base, value, post, hasUnitRate, hasSurcharge, isForeign);
      && 0.0 <= r.unitRateAmount <= 0.5 * base
      && 0.0 <= r.surchargeAmount
      && 0.0 <= r.vatAmount
      && base <= r.netTotal <= r.grossTotal <= 1.78365 * base
  {
    ItemizeIsClosedForm(base, value, post, hasUnitRate, hasSurcharge, isForeign);
    var u := UnitRateFactor(value, hasUnitRate);
    var s := SurchargeFactor(hasSurcharge);
    var v := VatFactor(isForeign);
    assert 0.0 <= u <= 0.5 && 0.0 <= s <= 0.1 && 0.0 <= v <= 0.081;
    ProductBounds(base, u, s, v, base * (1.0 + u), base * (1.0 + u) * (1.0 + s),
                  base * (1.0 + u) * (1.0 + s) * (1.0 + v));
  }

  /** Bounds of the closed-form factors, with b1, b2 and b3 the base after
      unit rate, surcharge and VAT. */
  lemma ProductBounds(base: real, u: real, s: real, v: real, b1: real, b2: real, b3: real)
    requires 0.0 <= base && 0.0 <= u <= 0.5 && 0.0 <= s <= 0.1 && 0.0 <= v <= 0.081
    requires b1 == base * (1.0 + u) && b2 == b1 * (1.0 + s) && b3 == b2 * (1.0 + v)
    ensures 0.0 <= base * u <= 0.5 * base
    ensures 0.0 <= b1 * s && 0.0 <= b2 * v
    ensures base <= b1 <= b2 <= b3 <= 1.78365 * base
  {
    Grow(base, u, 0.5, b1);
    Grow(b1, s, 0.1, b2);
    Grow(b2, v, 0.081, b3);
    GrowthChain(base, b1, b2, b3);
  }

  /** Adding a non-negative rate of at most hi to a non-negative amount. */
  lemma Grow(x: real, rate: real, hi: real, y: real)
    requires 0.0 <= x && 0.0 <= rate <= hi && y == x * (1.0 + rate)
    ensures 0.0 <= x * rate <= hi * x
    ensures x <= y <= x * (1.0 + hi)
  {
    assert x * (1.0 + rate) == x + x * rate;
    assert 0.0 <= x * rate && 0.0 <= x * (hi - rate);
  }

  lemma GrowthChain(base: real, b1: real, b2: real, b3: real)
    requires 0.0 <= base && b1 <= base * (1.0 + 0.5) && 0.0 <= b1
    requires b2 <= b1 * (1.0 + 0.1) && 0.0 <= b2 && b3 <= b2 * (1.0 + 0.081)
    ensures b3 <= 1.78365 * base
  {
  }

  /** The unit rate is chosen by the disputed amount, not by the fee: the
      same base earns a smaller net total at 15,001 than at 15,000. */
  lemma UnitRateDropsAbove15000(base: real, post: TarifPosten, hasSurcharge: bool, isForeign: bool)
    requires 0.0 < base
    ensures Itemize(base, 15001.0, post, true, hasSurcharge, isForeign).netTotal
          < Itemize(base, 15000.0, post, true, hasSurcharge, isForeign).netTotal
  {
  }

  /** TP5 and TP8 keep their table step across 15,000, so with the unit rate
      on, one unit at 15,001 costs less than at 15,000: 46.20 against 49.50
      for TP5 and 189 against 202.50 for TP8. */
  lemma UnitRateAnomaly()
    ensures FeesFor(BaseFee(15000.0, TP5), 1.0, 15000.0, TP5, true, false, false).netTotal == 49.5
    ensures FeesFor(BaseFee(15001.0, TP5), 1.0, 15001.0, TP5, true, false, false).netTotal == 46.2
    ensures FeesFor(BaseFee(15000.0, TP8), 1.0, 15000.0, TP8, true, false, false).netTotal == 202.5
    ensures FeesFor(BaseFee(15001.0, TP8), 1.0, 15001.0, TP8, true, false, false).netTotal == 189.0
  {
    assert BaseFee(15000.0, TP5) == 33.0 && BaseFee(15001.0, TP5) == 33.0;
    assert BaseFee(15000.0, TP8) == 135.0 && BaseFee(15001.0, TP8) == 135.0;
  }

  /** Where the table step changes at 15,000 the larger fee outweighs the
      lower unit rate: one unit of TP3A with the unit rate nets 951 at 15,000
      (634 plus 317) and 998.20 at 15,001 (713 plus 285.20). */
  lemma Tp3aUnitRateAcross15000()
    ensures var r := FeesFor(BaseFee(15000.0, TP3A), 1.0, 15000.0, TP3A, true, false, false);
      r.baseFee == 634.0 && r.unitRateAmount == 317.0 && r.netTotal == 951.0
    ensures var r := FeesFor(BaseFee(15001.0, TP3A), 1.0, 15001.0, TP3A, true, false, false);
      r.baseFee == 713.0 && r.unitRateAmount == 285.2 && r.netTotal == 998.2
  {
    Tp3aAroundFifteenThousand();
  }
}
