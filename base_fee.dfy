/** Properties of getBaseFee: how the ten posts are resolved, where the
    ancillary posts are capped, how TP6 and TP7 derive from TP5, and that every
    post's fee grows with the disputed amount. */
module BaseFeeProps {
  import opened Brackets
  import opened Fees
  import opened FeeLogic
  import opened TableLookup
  import opened FeeArith
  import opened StandardFeeProps
  import opened ScaledFeeProps

  /** The posts resolved by getStandardFee. */
  predicate IsStandardPost(post: TarifPosten) {
    post == TP1 || post == TP2 || post == TP3A || post == TP3B || post == TP3C
  }

  /** The uncapped TP5 fee that TP6 and TP7 start from. */
  function Tp5Raw(value: real): real {
    ScaledFee(value, TableTp5, 17.0, NoCap)
  }

  /** TP5 is the uncapped TP5 fee cut down to 100. */
  lemma Tp5IsCappedRaw(value: real)
    ensures BaseFee(value, TP5) == ApplyCap(Tp5Raw(value), CapAt(100.0))
  {
    TableTp5IsStrict();
    ScaledCapOutside(value, TableTp5, 17.0, CapAt(100.0));
    if value <= Last(TableTp5).limit {
      TableFeeNoneIffAboveLast(TableTp5, value);
      TableFeeMonotone(TableTp5, value, value);
    }
  }

  /** TP6 and TP7 multiply the uncapped TP5 fee before capping: while that fee
      is at most 100 they are exactly twice and four times TP5; once it exceeds
      100 TP5 stays at 100 while TP6 and TP7 exceed 200 and 400. */
  lemma Tp6Tp7FromTp5(value: real)
    ensures Tp5Raw(value) <= 100.0 ==>
              BaseFee(value, TP6) == 2.0 * BaseFee(value, TP5) && BaseFee(value, TP7) == 4.0 * BaseFee(value, TP5)
    ensures 100.0 < Tp5Raw(value) ==>
              BaseFee(value, TP5) == 100.0
              && 2.0 * BaseFee(value, TP5) < BaseFee(value, TP6) <= 330.0
              && 4.0 * BaseFee(value, TP5) < BaseFee(value, TP7) <= 440.0
  {
    Tp5IsCappedRaw(value);
  }

  /** TP6 and TP7 reach their own ceilings: TP6 is 330 once the amount exceeds
      170,000 (seven started blocks above 50,000) and still 304 at 170,000; TP7
      is 440 once the amount exceeds 110,000 (four started blocks) and still 404
      at 110,000. */
  lemma Tp6Tp7AtTheirCeilings(value: real)
    ensures 170000.0 < value ==> BaseFee(value, TP6) == 330.0
    ensures 110000.0 < value ==> BaseFee(value, TP7) == 440.0
    ensures BaseFee(170000.0, TP6) == 304.0 && BaseFee(110000.0, TP7) == 404.0
  {
    TableTp5IsStrict();
    if 110000.0 < value {
      ScaledBlockFormula(value, TableTp5, 17.0, NoCap);
      assert Ceil((value - 50000.0) / 20000.0) >= 4;
      if 170000.0 < value {
        assert Ceil((value - 50000.0) / 20000.0) >= 7;
      }
    }
    ScaledBlockRegime(170000.0, TableTp5, 17.0, NoCap, 6);
    ScaledBlockRegime(110000.0, TableTp5, 17.0, NoCap, 3);
  }

  /** Ceilings of the ancillary posts: TP5 at most 100, TP6 at most 330, TP7 at
      most 440, TP8 at most 600, and TP9 always 75. */
  lemma AncillaryCeilings(value: real)
    ensures BaseFee(value, TP5) <= 100.0 && BaseFee(value, TP6) <= 330.0
    ensures BaseFee(value, TP7) <= 440.0 && BaseFee(value, TP8) <= 600.0
    ensures BaseFee(value, TP9) == 75.0
  {
    TableTp8IsStrict();
    Tp5IsCappedRaw(value);
    if value <= Last(TableTp8).limit {
      TableFeeNoneIffAboveLast(TableTp8, value);
      TableFeeMonotone(TableTp8, value, value);
    } else {
      ScaledCapped(value, TableTp8, 15.0, CapAt(600.0));
    }
  }

  /** The standard posts keep growing: above 500,000 a larger amount always
      gives a strictly larger fee. */
  lemma StandardPostsKeepGrowing(x: real, y: real, post: TarifPosten)
    requires IsStandardPost(post) && 500000.0 < x < y
    ensures BaseFee(x, post) < BaseFee(y, post)
  {
    match post
    case TP1 =>
      TableTp1IsStrict();
      StandardStrictAbove500k(x, y, TableTp1, 17.0, 0.0001, 0.00005);
    case TP2 =>
      TableTp2IsStrict();
      StandardStrictAbove500k(x, y, TableTp2, 80.0, 0.0005, 0.00025);
    case TP3A =>
      TableTp3aIsStrict();
      StandardStrictAbove500k(x, y, TableTp3a, 159.0, 0.01, 0.005);
    case TP3B =>
      TableTp3bIsStrict();
      StandardStrictAbove500k(x, y, TableTp3b, 198.0, 0.0125, 0.00625);
    case TP3C =>
      TableTp3cIsStrict();
      StandardStrictAbove500k(x, y, TableTp3c, 238.0, 0.015, 0.0075);
  }

  /** For every post a larger disputed amount never gives a smaller fee. */
  lemma BaseFeeMonotone(x: real, y: real, post: TarifPosten)
    requires x <= y
    ensures BaseFee(x, post) <= BaseFee(y, post)
  {
    match post
    case TP1 =>
      TableTp1IsStrict();
      StandardMonotone(x, y, TableTp1, 17.0, 0.0001, 0.00005, NoCap);
    case TP2 =>
      TableTp2IsStrict();
      StandardMonotone(x, y, TableTp2, 80.0, 0.0005, 0.00025, NoCap);
    case TP3A =>
      TableTp3aIsStrict();
      StandardMonotone(x, y, TableTp3a, 159.0, 0.01, 0.005, NoCap);
    case TP3B =>
      TableTp3bIsStrict();
      StandardMonotone(x, y, TableTp3b, 198.0, 0.0125, 0.00625, NoCap);
    case TP3C =>
      TableTp3cIsStrict();
      StandardMonotone(x, y, TableTp3c, 238.0, 0.015, 0.0075, NoCap);
    case TP5 =>
      TableTp5IsStrict();
      ScaledMonotone(x, y, TableTp5, 17.0, CapAt(100.0));
    case TP6 =>
      TableTp5IsStrict();
      ScaledUncappedMonotone(x, y, TableTp5, 17.0);
    case TP7 =>
      TableTp5IsStrict();
      ScaledUncappedMonotone(x, y, TableTp5, 17.0);
    case TP8 =>
      TableTp8IsStrict();
      ScaledMonotone(x, y, TableTp8, 15.0, CapAt(600.0));
    case TP9 =>
  }

  /** There is no guard against zero or negative amounts: everything up to the
      first limit, including 0 and below, gets the first step's fee. */
  lemma NoFloorBelowFirstStep(value: real)
    ensures value <= 500.0 ==>
              BaseFee(value, TP1) == 17.0 && BaseFee(value, TP2) == 80.0 && BaseFee(value, TP3A) == 159.0
              && BaseFee(value, TP3B) == 198.0 && BaseFee(value, TP3C) == 238.0
    ensures value <= 1000.0 ==> BaseFee(value, TP5) == 8.0 && BaseFee(value, TP8) == 30.0
  {
  }

  /** The TP3A table is read boundary-inclusively: 15,000 still gets the step
      up to 15,000, one franc more gets the next step. */
  lemma Tp3aAroundFifteenThousand()
    ensures BaseFee(15000.0, TP3A) == 634.0
    ensures BaseFee(15001.0, TP3A) == 713.0
  {
    TableTp3aIsStrict();
    TableFeeInBracket(TableTp3a, 15000.0, 6);
    TableFeeInBracket(TableTp3a, 15001.0, 7);
  }

  /** The fees of all ten posts at 100,000. */
  lemma FeesAtOneHundredThousand()
    ensures BaseFee(100000.0, TP1) == 119.0 && BaseFee(100000.0, TP2) == 594.0
    ensures BaseFee(100000.0, TP3A) == 1188.0 && BaseFee(100000.0, TP3B) == 1485.0
    ensures BaseFee(100000.0, TP3C) == 1782.0
    ensures BaseFee(100000.0, TP5) == 100.0 && BaseFee(100000.0, TP6) == 202.0
    ensures BaseFee(100000.0, TP7) == 404.0 && BaseFee(100000.0, TP8) == 195.0
    ensures BaseFee(100000.0, TP9) == 75.0
  {
    TableTp5IsStrict();
    TableTp8IsStrict();
    ScaledBlockRegime(100000.0, TableTp5, 17.0, CapAt(100.0), 3);
    ScaledBlockRegime(100000.0, TableTp5, 17.0, NoCap, 3);
    ScaledBlockRegime(100000.0, TableTp8, 15.0, CapAt(600.0), 4);
  }

  /** Each of the ten posts is resolved by its own branch: at 100,000 no two
      posts share a fee. */
  lemma PostsHaveOwnBranches(p: TarifPosten, q: TarifPosten)
    requires p != q
    ensures BaseFee(100000.0, p) != BaseFee(100000.0, q)
  {
    FeesAtOneHundredThousand();
  }
}
