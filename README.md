# Fee engine of the Liechtenstein attorney tariff calculator

This project models the fee-resolution engine of KALKO, a calculator for legal fees under the Liechtenstein attorney tariff (RATG/RATV) and the court fee act (GGG). Given a disputed amount ("Streitwert") and a tariff post (TP1 … TP9), the engine works as follows:

- **Base fee.** `getBaseFee` finds the fee of one unit.
  - The standard posts (TP1, TP2, TP3A, TP3B, TP3C) go through `getStandardFee`. It reads a bracket table up to 140,000. Above that it adds a step increment per started 20,000 up to 500,000. Above 500,000 it adds a percentage of the excess, and a second, lower percentage of the excess above 5,000,000: per mille for TP1 and TP2, percent for TP3A, TP3B and TP3C.
  - TP5 and TP8 go through `getScaledFee`. It reads the table and then adds one increment per started 20,000, up to a cap.
  - TP6 and TP7 are twice and four times the uncapped TP5 fee, each capped at its own ceiling.
  - TP9 is a flat 75.
- **Full calculation.** `calculateFees` multiplies the base fee by the number of units. On top of that it adds:
  - the unit rate ("Einheitssatz"): 50% up to a disputed amount of 15,000, 40% above;
  - the 10% co-party surcharge on base plus unit rate;
  - 8.1% VAT unless the client is foreign.
- **Parameter files.** The files under `src/tarife/` hold the parameters of each post, including a maximum fee. They also hold the court fee table with its five kinds of proceeding.

Money is an exact `real`. The code never rounds, so the model does not round either. The `Infinity` that `getBaseFee` passes as "no cap" is the constructor `NoCap` of `FeeLogic.Cap`.

Modules:

- `Brackets` (brackets.dfy): ascending limit lists, and the bracket a value falls into. A limit is the inclusive upper end of its bracket.
- `Fees` (fees.dfy): the ten posts and the seven tables of `src/fees.ts`.
- `FeeLogic` (logic.dfy): `src/logic.ts`.
  - Resolvers as functions: `TableFee`, `StandardFee`, `ScaledFee`, `BaseFee`, `Itemize`.
  - The same operations as methods, each proved equal to its function: `ScanTable` (the `for … of` loop with early return), `GetStandardFee`, `GetScaledFee`, `GetBaseFee`, `CalculateFees` and `LayerFees`.
- Lemmas about `src/logic.ts`, by regime:
  - `TableLookup` (lookup.dfy): the table scan.
  - `FeeArith` (fee_arith.dfy): small arithmetic helpers.
  - `StandardFeeProps` (standard_fee.dfy) and `ScaledFeeProps` (scaled_fee.dfy): the two resolvers.
  - `BaseFeeProps` (base_fee.dfy): getBaseFee.
  - `CalculationProps` (calculation.dfy): calculateFees.
- `Tp1`, `Tp2`, `Tp3a`, `Tp3b`, `Tp3c`, `Tp5`, `Tp8` (tp*.dfy): the parameter sets of `src/tarife/`, each run through the generic resolver with its own cap.
- `Gkg` (gkg.dfy): the court fee table and its bracket lookup, which clamps to the last row.

Where the parts of the repository disagree, the model follows `src/logic.ts`:

- **TP3 rates.** For TP3A, TP3B and TP3C, `getBaseFee` passes ten times the rates of `src/tarife/tp3*.ts`. The comment at src/logic.ts:110-111 marks this as intended (percent, not per mille). `Tp3a.LogicUsesTheseRates` and its two siblings state the factor.
- **Caps.** `getBaseFee` passes no cap for the standard posts. The tarife caps therefore apply only in the `Tp*` modules, and `Tp1.LogicIgnoresCap` and its siblings show the uncapped amount at 100,000,000.
- **Features the code lacks.** `calculateFees` has no zero guard, no court fee, no graduated surcharge, no session fee and no rounding to cents. The model has none of these either.

## Model

| member | source | states |
|---|---|---|
| Brackets.FirstAtLeast | src/tarife/gkg.ts:7 | the bracket index of a value: every earlier limit lies below it, and the limit at the index (if any) covers it |
| Brackets.FirstAtLeastInBracket | src/logic.ts:131-133 | a value above limit k-1 and at or below limit k falls into bracket k; a value equal to a limit stays in that limit's bracket |
| Brackets.CoveredIffAtMostLast | src/logic.ts:131-135 | some bracket covers a value exactly when it does not exceed the last limit |
| Brackets.FirstAtLeastMonotone | src/logic.ts:131-133 | a larger value never falls into an earlier bracket |
| Fees.PostsAreTen | src/fees.ts:3-5 | there are exactly ten tariff posts |
| Fees.TableTp1IsStrict | src/fees.ts:12 | the TP1 table is non-empty, limits and fees strictly increase, first fee positive |
| Fees.TableTp2IsStrict | src/fees.ts:13 | the same for the TP2 table |
| Fees.TableTp3aIsStrict | src/fees.ts:14 | the same for the TP3A table |
| Fees.TableTp3bIsStrict | src/fees.ts:15 | the same for the TP3B table |
| Fees.TableTp3cIsStrict | src/fees.ts:16 | the same for the TP3C table |
| Fees.TableTp5IsStrict | src/fees.ts:17 | the same for the TP5 table |
| Fees.TableTp8IsStrict | src/fees.ts:18 | the same for the TP8 table |
| Fees.StandardTablesShareLimits | src/fees.ts:11-16 | the five standard tables share twelve limits ending at 140,000 |
| Fees.AncillaryTableEnds | src/fees.ts:17-18 | the TP5 table has six steps ending at (50,000, 50), the TP8 table five ending at (25,000, 135) |
| FeeLogic.Min | src/logic.ts:90-94 | `Math.min` of two amounts: at most each of them and equal to one of them |
| FeeLogic.TableFee | src/logic.ts:131-133 | the `for … of` scan as a function: the fee of the first step whose limit covers the value, or nothing; its meaning is stated by `TableFeeIsFirstCovering`, `TableLookup.TableFeeInBracket` and `TableLookup.TableFeeNoneIffAboveLast` |
| FeeLogic.TableFeeFrom | src/logic.ts:131-133 | the same scan from step k on; characterised by `TableFeeFromFirstCovering`, `TableFeeFromFound` and `TableFeeFromNone` |
| FeeLogic.StandardFee | src/logic.ts:129-160 | getStandardFee: a table hit is returned as it is, otherwise the formula part; its regimes are stated by `StandardFeeProps.StandardTableRegime`, `StandardLinearFormula`, `StandardFirstTier` and `StandardSecondTier`, and its growth by `StandardFeeProps.StandardMonotone` |
| FeeLogic.StandardFeeAboveTable | src/logic.ts:135-159 | the formula part of getStandardFee: started 20,000 blocks above 140,000 up to 500,000, then the two capped percentage tiers; stated by `StandardFeeProps.StandardNoJumps`, `StandardCapOutside` and `StandardCapped` |
| FeeLogic.ScaledFee | src/logic.ts:162-171 | getScaledFee: a table hit uncapped, otherwise the capped block formula; stated by `ScaledFeeProps.ScaledTableRegime`, `ScaledBlockFormula` and `ScaledMonotone` |
| FeeLogic.ScaledFeeAboveTable | src/logic.ts:166-170 | the block formula of getScaledFee, capped; stated by `ScaledFeeProps.ScaledBlockRegime` and `ScaledCapped` |
| FeeLogic.BaseFee | src/logic.ts:84-127 | getBaseFee, one branch per post with the literal tables, increments, rates and caps; stated by `BaseFeeProps.FeesAtOneHundredThousand`, `BaseFeeMonotone`, `AncillaryCeilings`, `Tp6Tp7AtTheirCeilings` and the `Tp*` modules |
| FeeLogic.UnitRatePercentage | src/logic.ts:53 | 50% up to and including 15,000, 40% above; stated by `CalculationProps.Accounting` and `UnitRateDropsAbove15000` |
| FeeLogic.IsTimeBased | src/logic.ts:47 | TP7, TP8 and TP9 are the time-based posts; stated by `CalculationProps.Accounting` |
| FeeLogic.Itemize | src/logic.ts:49-81 | the amounts of calculateFees for a multiplied base fee; stated by `CalculationProps.ItemizeIsClosedForm`, `Accounting` and `AmountsBounded` |
| FeeLogic.FeesFor | src/logic.ts:44-49 | the itemization of a single fee times the multiplier; stated by `CalculationProps.Accounting` and `ForeignPaysNoVat` |
| FeeLogic.ApplyCap | src/logic.ts:151 | `Math.min` with the cap: never above the amount or the cap, equal to the amount when it is within the cap, equal to the cap otherwise |
| FeeLogic.Ceil | src/logic.ts:140 | `Math.ceil`: the least integer at or above the quotient |
| FeeLogic.CeilOfStartedBlock | src/logic.ts:139-140 | a quotient in (n-1, n] counts as n started blocks |
| FeeLogic.CeilMonotone | src/logic.ts:168 | more excess never gives fewer started blocks |
| FeeLogic.TableFeeFromFirstCovering | src/logic.ts:131-133 | the scan from step k returns the fee of the first step at or after k whose limit covers the value |
| FeeLogic.TableFeeFromFound | src/logic.ts:131-133 | when the scan returns a fee, it is that of a covering step preceded only by steps whose limits lie below the value |
| FeeLogic.TableFeeFromNone | src/logic.ts:131-133 | the scan falls through exactly when every remaining limit lies below the value |
| FeeLogic.TableFeeIsFirstCovering | src/logic.ts:131-133 | the scan returns the fee of the step at the value's bracket, or nothing when the bracket runs off the table |
| FeeLogic.ScanTable | src/logic.ts:131-133 | the `for … of` loop with early return computes exactly that lookup |
| FeeLogic.GetStandardFee | src/logic.ts:129-160 | the method returns the standard-fee function of its arguments |
| FeeLogic.GetScaledFee | src/logic.ts:162-171 | the method returns the scaled-fee function of its arguments |
| FeeLogic.GetBaseFee | src/logic.ts:84-127 | the method returns the base-fee function of amount and post |
| FeeLogic.CalculateFees | src/logic.ts:35-82 | the result is the itemization of the base fee of the post times the multiplier |
| FeeLogic.LayerFees | src/logic.ts:47-81 | the step-by-step layering of unit rate, surcharge, net total, VAT and gross total yields that itemization |
| TableLookup.TableFeeInBracket | src/logic.ts:131-133 | in an increasing table a value in bracket k gets step k's fee, boundary included |
| TableLookup.TableFeeNoneIffAboveLast | src/logic.ts:131-135 | the scan falls through exactly when the value exceeds the last limit |
| TableLookup.TableFeeMonotone | src/logic.ts:131-133 | in an ascending table a larger value never gets a smaller table fee, and no table fee exceeds the last |
| StandardFeeProps.StandardTableRegime | src/logic.ts:131-133 | a value in bracket k gets step k's fee, whatever the rates and cap |
| StandardFeeProps.StandardLinearFormula | src/logic.ts:138-142 | above the table and up to 500,000: last table fee plus the increment per started 20,000 above 140,000, uncapped |
| StandardFeeProps.StandardLinearRegime | src/logic.ts:138-142 | in the n-th started block above 140,000 (n from 1 to 18) the fee is last table fee + n increments |
| StandardFeeProps.StandardFirstTier | src/logic.ts:145-152 | above 500,000 up to 5,000,000: capped (fee at 500,000 + excess × first rate), with 18 blocks to 500,000 |
| StandardFeeProps.StandardSecondTier | src/logic.ts:154-159 | above 5,000,000: capped (uncapped fee at 5,000,000 + excess × second rate) |
| StandardFeeProps.StandardCapped | src/logic.ts:148-159 | above 500,000 the fee never exceeds the cap |
| StandardFeeProps.StandardNoJumps | src/logic.ts:138-159 | the linear regime ends at the first tier's starting point, and the first tier ends at the second tier's starting point |
| StandardFeeProps.StandardLinearBounds | src/logic.ts:138-142 | with a non-negative increment the linear regime stays between the last table fee and the fee at 500,000 and never falls |
| StandardFeeProps.StandardCapOutside | src/logic.ts:138-159 | up to 500,000 the cap has no effect; above, the fee is the uncapped fee cut down to the cap |
| StandardFeeProps.StandardFirstTierBounds | src/logic.ts:148-152 | uncapped, the first tier runs from the fee at 500,000 to the fee at 5,000,000 and never falls |
| StandardFeeProps.StandardSecondTierBounds | src/logic.ts:155-159 | uncapped, the second tier starts at the fee at 5,000,000 and never falls |
| StandardFeeProps.StandardUncappedAboveTable | src/logic.ts:135-159 | uncapped, above the table the fee starts at the last table fee and never falls |
| StandardFeeProps.StandardUncappedMonotone | src/logic.ts:129-160 | uncapped, with an ascending table and non-negative parameters, a larger amount never gives a smaller fee |
| StandardFeeProps.StandardMonotone | src/logic.ts:129-160 | the same with a cap, provided the cap is not below the fee at 500,000 |
| StandardFeeProps.StandardStrictAbove500k | src/logic.ts:148-159 | uncapped, with positive rates, the fee strictly grows above 500,000 |
| ScaledFeeProps.ScaledTableRegime | src/logic.ts:163-165 | a value in bracket k gets step k's fee, even when the cap lies below it |
| ScaledFeeProps.ScaledBlockFormula | src/logic.ts:166-170 | above the table: capped (last fee + increment × started 20,000 blocks above the last limit) |
| ScaledFeeProps.ScaledBlockRegime | src/logic.ts:166-170 | in the n-th started block above the last limit the fee is capped (last fee + n increments) |
| ScaledFeeProps.ScaledCapped | src/logic.ts:170 | above the table the fee never exceeds the cap |
| ScaledFeeProps.ScaledCapOutside | src/logic.ts:162-171 | within the table the cap has no effect; above it, the fee is the uncapped fee cut down to the cap |
| ScaledFeeProps.ScaledUncappedAboveTable | src/logic.ts:166-169 | uncapped, above the table the fee starts at the last table fee and never falls |
| ScaledFeeProps.ScaledUncappedMonotone | src/logic.ts:162-171 | uncapped, with an ascending table and non-negative increment, the fee never falls |
| ScaledFeeProps.ScaledMonotone | src/logic.ts:162-171 | the same with a cap not below the last table fee |
| BaseFeeProps.Tp5IsCappedRaw | src/logic.ts:87-89 | TP5 is the uncapped TP5 fee cut down to 100 |
| BaseFeeProps.Tp6Tp7FromTp5 | src/logic.ts:87-95 | while uncapped TP5 is at most 100, TP6 and TP7 are exactly 2× and 4× TP5; above, TP5 stays 100 while TP6 and TP7 exceed 200 and 400, up to 330 and 440 |
| BaseFeeProps.Tp6Tp7AtTheirCeilings | src/logic.ts:88-95 | TP6 is exactly 330 for every amount above 170,000 and still 304 at 170,000; TP7 is exactly 440 above 110,000 and still 404 at 110,000 |
| BaseFeeProps.AncillaryCeilings | src/logic.ts:87-97 | TP5 ≤ 100, TP6 ≤ 330, TP7 ≤ 440, TP8 ≤ 600, TP9 = 75 for every amount |
| BaseFeeProps.StandardPostsKeepGrowing | src/logic.ts:101-123 | above 500,000 a larger amount gives each of the five standard posts a strictly larger fee |
| BaseFeeProps.BaseFeeMonotone | src/logic.ts:84-127 | for every post a larger amount never gives a smaller fee |
| BaseFeeProps.NoFloorBelowFirstStep | src/logic.ts:131-133 | amounts up to the first limit, zero and negative ones included, get the first step's fee (17, 80, 159, 198, 238; 8, 30) |
| BaseFeeProps.Tp3aAroundFifteenThousand | src/logic.ts:113 | TP3A is 634 at 15,000 and 713 at 15,001 |
| BaseFeeProps.FeesAtOneHundredThousand | src/logic.ts:84-127 | the fee of each post at 100,000: 119, 594, 1188, 1485, 1782, 100, 202, 404, 195, 75 |
| BaseFeeProps.PostsHaveOwnBranches | src/logic.ts:85-124 | two different posts never share a fee at 100,000: each has its own branch |
| CalculationProps.ItemizeIsClosedForm | src/logic.ts:49-66 | the stepwise amounts equal base × (1+u), × (1+s), × (1+v), with u, s and v the unit-rate, surcharge and VAT factors, each zero when its flag is off |
| CalculationProps.Accounting | src/logic.ts:47-81 | base = single fee × multiplier; unit rate 50%/40% by amount or 0; surcharge 10% of base plus unit rate or 0; net = their sum; VAT 8.1% of net or 0 for foreign clients; gross = net + VAT; flags echoed; time-based iff TP7, TP8 or TP9 |
| CalculationProps.ForeignPaysNoVat | src/logic.ts:65-66 | a foreign client pays no VAT, so gross equals net |
| CalculationProps.AmountsBounded | src/logic.ts:49-66 | with a non-negative base every amount is non-negative, and base ≤ net ≤ gross ≤ 1.5 × 1.1 × 1.081 × base |
| CalculationProps.UnitRateDropsAbove15000 | src/logic.ts:51-55 | with the unit rate on, the same positive base gives a strictly smaller net total at 15,001 than at 15,000 |
| CalculationProps.UnitRateAnomaly | src/logic.ts:44-64 | one unit of TP5 nets 49.50 at 15,000 but 46.20 at 15,001, and one unit of TP8 nets 202.50 against 189 |
| CalculationProps.Tp3aUnitRateAcross15000 | src/logic.ts:44-64 | with the unit rate, one unit of TP3A nets 951 at 15,000 (634 + 317) and 998.20 at 15,001 (713 + 285.20) |
| Tp1.TableAsInFees | src/tarife/tp1.ts:5-18 | the TP1 parameter table equals the fees.ts table and is strictly ascending |
| Tp1.LogicUsesTheseRates | src/tarife/tp1.ts:20-25 | getBaseFee for TP1 is the standard fee with this increment and these rates, uncapped |
| Tp1.KeyValues | src/tarife/tp1.ts:20-28 | with the cap: 465 at 500,000 (within the cap of 1426), 1165 at 10,000,000, exactly the cap at 100,000,000 |
| Tp1.LogicIgnoresCap | src/tarife/tp1.ts:28 | getBaseFee returns 5665 at 100,000,000, above the cap |
| Tp1.FeeMonotone | src/tarife/tp1.ts:5-28 | with the cap the fee never falls as the amount grows |
| Tp1.FeeAtMostCap | src/tarife/tp1.ts:28 | with the cap the fee never exceeds 1426 |
| Tp2.TableAsInFees | src/tarife/tp2.ts:4-17 | the TP2 parameter table equals the fees.ts table and is strictly ascending |
| Tp2.LogicUsesTheseRates | src/tarife/tp2.ts:19-22 | getBaseFee for TP2 is the standard fee with this increment and these rates, uncapped |
| Tp2.KeyValues | src/tarife/tp2.ts:19-24 | with the cap: 2232 at 500,000, 4482 at 5,000,000, exactly the cap of 7128 at 100,000,000 |
| Tp2.LogicIgnoresCap | src/tarife/tp2.ts:24 | getBaseFee returns 28232 at 100,000,000, above the cap |
| Tp2.FeeMonotone | src/tarife/tp2.ts:4-24 | with the cap the fee never falls as the amount grows |
| Tp2.FeeAtMostCap | src/tarife/tp2.ts:24 | with the cap the fee never exceeds 7128 |
| Tp3a.TableAsInFees | src/tarife/tp3a.ts:4-17 | the TP3A parameter table equals the fees.ts table and is strictly ascending |
| Tp3a.LogicUsesTheseRates | src/tarife/tp3a.ts:19-22 | getBaseFee for TP3A is the standard fee with this increment and ten times these rates, uncapped |
| Tp3a.KeyValues | src/tarife/tp3a.ts:19-24 | with the cap: 4446 at 500,000, 8946 at 5,000,000, exactly the cap of 43200 at 100,000,000 |
| Tp3a.LogicIgnoresCap | src/tarife/tp3a.ts:24 | getBaseFee returns 524446 at 100,000,000, above the cap |
| Tp3a.FeeMonotone | src/tarife/tp3a.ts:4-24 | with the cap the fee never falls as the amount grows |
| Tp3a.FeeAtMostCap | src/tarife/tp3a.ts:24 | with the cap the fee never exceeds 43200 |
| Tp3b.TableAsInFees | src/tarife/tp3b.ts:4-17 | the TP3B parameter table equals the fees.ts table and is strictly ascending |
| Tp3b.LogicUsesTheseRates | src/tarife/tp3b.ts:19-23 | getBaseFee for TP3B is the standard fee with this increment and ten times these rates, uncapped |
| Tp3b.KeyValues | src/tarife/tp3b.ts:19-25 | with the cap: 5544 at 500,000, 11169 at 5,000,000, exactly the cap of 54000 at 100,000,000 |
| Tp3b.LogicIgnoresCap | src/tarife/tp3b.ts:25 | getBaseFee returns 655544 at 100,000,000, above the cap |
| Tp3b.FeeMonotone | src/tarife/tp3b.ts:4-25 | with the cap the fee never falls as the amount grows |
| Tp3b.FeeAtMostCap | src/tarife/tp3b.ts:25 | with the cap the fee never exceeds 54000 |
| Tp3c.TableAsInFees | src/tarife/tp3c.ts:4-17 | the TP3C parameter table equals the fees.ts table and is strictly ascending |
| Tp3c.LogicUsesTheseRates | src/tarife/tp3c.ts:19-23 | getBaseFee for TP3C is the standard fee with this increment and ten times these rates, uncapped |
| Tp3c.KeyValues | src/tarife/tp3c.ts:19-25 | with the cap: 6660 at 500,000, 13410 at 5,000,000, exactly the cap of 64800 at 100,000,000 |
| Tp3c.LogicIgnoresCap | src/tarife/tp3c.ts:25 | getBaseFee returns 786660 at 100,000,000, above the cap |
| Tp3c.FeeMonotone | src/tarife/tp3c.ts:4-25 | with the cap the fee never falls as the amount grows |
| Tp3c.FeeAtMostCap | src/tarife/tp3c.ts:25 | with the cap the fee never exceeds 64800 |
| Tp5.TableAsInFees | src/tarife/tp5.ts:5-12 | the TP5 parameter table equals the fees.ts table: six strictly ascending steps ending at 50,000 |
| Tp5.LogicUsesTheseValues | src/tarife/tp5.ts:14-16 | getBaseFee for TP5 is the scaled fee with increment 17 and cap 100 |
| Tp5.Ranges | src/tarife/tp5.ts:5-16 | 67 for amounts above 50,000 up to 70,000, 84 up to 90,000, exactly 100 above |
| Tp5.UncappedAtOneHundredThousand | src/tarife/tp5.ts:5-15 | uncapped TP5 is 101 at 100,000, so TP6 there is 202 |
| Tp5.FeeMonotone | src/tarife/tp5.ts:5-16 | with the cap the fee never falls as the amount grows |
| Tp5.FeeAtMostCap | src/tarife/tp5.ts:16 | with the cap the fee never exceeds 100 |
| Tp8.TableAsInFees | src/tarife/tp8.ts:5-11 | the TP8 parameter table equals the fees.ts table: five strictly ascending steps ending at 25,000 |
| Tp8.LogicUsesTheseValues | src/tarife/tp8.ts:13-15 | getBaseFee for TP8 is the scaled fee with increment 15 and cap 600 |
| Tp8.Ranges | src/tarife/tp8.ts:5-15 | 150 for amounts above 25,000 up to 45,000, 585 at 625,000, exactly 600 above 625,000 |
| Tp8.FeeMonotone | src/tarife/tp8.ts:5-15 | with the cap the fee never falls as the amount grows |
| Tp8.FeeAtMostCap | src/tarife/tp8.ts:15 | with the cap the fee never exceeds 600 |
| Gkg.RowIndex | src/tarife/gkg.ts:7 | the row read for an amount: every earlier row's limit lies below it, and its own limit covers it unless it is the last row |
| Gkg.ColumnFee | src/tarife/gkg.ts:6-13 | the fee a row holds for one kind of proceeding; stated by `Gkg.ColumnsNameTheFields` |
| Gkg.CourtFee | src/tarife/gkg.ts:7-29 | the court fee: the column's fee in the row `RowIndex` picks; stated by `Gkg.AboveTableTakesLastRow` and `Gkg.CourtFeeMonotone` |
| Gkg.TableShape | src/tarife/gkg.ts:15-25 | ten rows, limits strictly ascending from 100 to 2,000,000 |
| Gkg.ColumnsNonDecreasing | src/tarife/gkg.ts:16-25 | in each of the five columns a later row never holds a smaller fee |
| Gkg.RowInBracket | src/tarife/gkg.ts:7 | an amount above limit k-1 and at or below limit k reads row k |
| Gkg.AboveTableTakesLastRow | src/tarife/gkg.ts:26-29 | amounts above 2,000,000 read the last row: 7200 for contentious civil proceedings, 850 for debt collection |
| Gkg.CourtFeeMonotone | src/tarife/gkg.ts:15-29 | in every column a larger amount never gives a smaller court fee |
| Gkg.RowIndexMonotone | src/tarife/gkg.ts:7 | a larger amount never reads an earlier row |
| Gkg.RowFeeMonotone | src/tarife/gkg.ts:16-25 | with a non-decreasing column, the fee read for a larger amount is never smaller |
| Gkg.ColumnsNameTheFields | src/tarife/gkg.ts:6-13 | there are exactly five columns, and any two different columns read different fees from the row up to 100,000 |

## Left out

- `formatCurrency` (src/logic.ts:173-175): locale formatting through `Intl.NumberFormat`, a library call.
- `SEARCH_OPTIONS` and `TP_LABELS` (src/fees.ts:20-37) and `GKG_LABELS` (src/tarife/gkg.ts:35-41): user-interface labels and search keywords.
- The `Position` interface (src/logic.ts:11-18): a storage shape with no behaviour.
- The `isAncillary` local (src/logic.ts:46): computed but never read.
- The `default: return 0` branch of `getBaseFee` (src/logic.ts:125): the post is a closed datatype, so no input reaches it.
- The default argument `multiplier = 1` (src/logic.ts:38): every call in the model passes the multiplier explicitly.
- Floating-point rounding: JavaScript numbers are IEEE-754 doubles. The model uses exact reals, so results that a double would round (0.1 × 0.081 and the like) are exact here.
- `FeeLogic.GetStandardFee` and `FeeLogic.GetScaledFee`: require a non-empty table, because the source reads `table[table.length - 1]` of an empty table and fails. All tables of the source are non-empty.
- `src/logic.test.ts` is not part of this model. Its calls pass nine arguments to a six-argument function and expect fields the result does not have.
- No court fee wiring, appeal multiplier, session fee, graduated co-party surcharge or zero-amount guard appears in `calculateFees`, so none is modelled. The court fee table is modelled on its own (`Gkg`), with the lookup policy its comments state. gkg.ts itself contains no lookup function.
