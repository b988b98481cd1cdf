/** The tariff posts and the seven attorney fee tables of the
    Liechtenstein attorney tariff: each table is a list of steps
    "fee applicable up to and including this disputed amount". */
module Fees {
  import opened Brackets

  /** One table step: the fee for disputed amounts up to and including `limit`. */
  datatype FeeStep = FeeStep(limit: real, fee: real)

  /** The ten tariff posts the calculator offers. */
  datatype TarifPosten = TP1 | TP2 | TP3A | TP3B | TP3C | TP5 | TP6 | TP7 | TP8 | TP9

  const AllPosts: set<TarifPosten> := {TP1, TP2, TP3A, TP3B, TP3C, TP5, TP6, TP7, TP8, TP9}

  function Limits(table: seq<FeeStep>): (s: seq<real>)
    ensures |s| == |table|
    ensures forall i :: 0 <= i < |table| ==> s[i] == table[i].limit
  {
    seq(|table|, i requires 0 <= i < |table| => table[i].limit)
  }

  function FeeAmounts(table: seq<FeeStep>): (s: seq<real>)
    ensures |s| == |table|
    ensures forall i :: 0 <= i < |table| ==> s[i] == table[i].fee
  {
    seq(|table|, i requires 0 <= i < |table| => table[i].fee)
  }

  function Last(table: seq<FeeStep>): FeeStep
    requires |table| > 0
  {
    table[|table| - 1]
  }

  /** A table as the lookup expects it: non-empty, limits strictly increasing,
      fees never falling. */
  predicate AscendingTable(table: seq<FeeStep>) {
    |table| > 0 && Increasing(Limits(table)) && NonDecreasing(FeeAmounts(table))
  }

  /** Stronger than `AscendingTable`: every fee positive and strictly larger
      than the one before. */
  predicate StrictTable(table: seq<FeeStep>) {
    |table| > 0 && Increasing(Limits(table)) && Increasing(FeeAmounts(table)) && table[0].fee > 0.0
  }

  const TableTp1: seq<FeeStep> := [
    FeeStep(500.0, 17.0), FeeStep(1000.0, 25.0), FeeStep(1500.0, 32.0), FeeStep(2500.0, 37.0),
    FeeStep(5000.0, 40.0), FeeStep(10000.0, 49.0), FeeStep(15000.0, 64.0), FeeStep(25000.0, 72.0),
    FeeStep(50000.0, 80.0), FeeStep(75000.0, 96.0), FeeStep(100000.0, 119.0), FeeStep(140000.0, 159.0)]

  const TableTp2: seq<FeeStep> := [
    FeeStep(500.0, 80.0), FeeStep(1000.0, 119.0), FeeStep(1500.0, 159.0), FeeStep(2500.0, 175.0),
    FeeStep(5000.0, 198.0), FeeStep(10000.0, 238.0), FeeStep(15000.0, 317.0), FeeStep(25000.0, 357.0),
    FeeStep(50000.0, 396.0), FeeStep(75000.0, 476.0), FeeStep(100000.0, 594.0), FeeStep(140000.0, 792.0)]

  const TableTp3a: seq<FeeStep> := [
    FeeStep(500.0, 159.0), FeeStep(1000.0, 238.0), FeeStep(1500.0, 317.0), FeeStep(2500.0, 349.0),
    FeeStep(5000.0, 396.0), FeeStep(10000.0, 476.0), FeeStep(15000.0, 634.0), FeeStep(25000.0, 713.0),
    FeeStep(50000.0, 792.0), FeeStep(75000.0, 951.0), FeeStep(100000.0, 1188.0), FeeStep(140000.0, 1584.0)]

  const TableTp3b: seq<FeeStep> := [
    FeeStep(500.0, 198.0), FeeStep(1000.0, 297.0), FeeStep(1500.0, 396.0), FeeStep(2500.0, 436.0),
    FeeStep(5000.0, 495.0), FeeStep(10000.0, 594.0), FeeStep(15000.0, 792.0), FeeStep(25000.0, 891.0),
    FeeStep(50000.0, 990.0), FeeStep(75000.0, 1188.0), FeeStep(100000.0, 1485.0), FeeStep(140000.0, 1980.0)]

  const TableTp3c: seq<FeeStep> := [
    FeeStep(500.0, 238.0), FeeStep(1000.0, 357.0), FeeStep(1500.0, 476.0), FeeStep(2500.0, 524.0),
    FeeStep(5000.0, 594.0), FeeStep(10000.0, 713.0), FeeStep(15000.0, 951.0), FeeStep(25000.0, 1070.0),
    FeeStep(50000.0, 1188.0), FeeStep(75000.0, 1426.0), FeeStep(100000.0, 1782.0), FeeStep(140000.0, 2376.0)]

  const TableTp5: seq<FeeStep> := [
    FeeStep(1000.0, 8.0), FeeStep(2500.0, 10.0), FeeStep(5000.0, 12.0),
    FeeStep(10000.0, 17.0), FeeStep(25000.0, 33.0), FeeStep(50000.0, 50.0)]

  const TableTp8: seq<FeeStep> := [
    FeeStep(1000.0, 30.0), FeeStep(2500.0, 45.0), FeeStep(5000.0, 53.0),
    FeeStep(10000.0, 75.0), FeeStep(25000.0, 135.0)]

  /** The twelve limits shared by the five standard tables. */
  const StandardLimits: seq<real> := [
    500.0, 1000.0, 1500.0, 2500.0, 5000.0, 10000.0, 15000.0, 25000.0, 50000.0, 75000.0, 100000.0, 140000.0]

  lemma {:induction false} PostsAreTen()
    ensures |AllPosts| == 10
    ensures forall p: TarifPosten :: p in AllPosts
  {
    var s1 := {TP1, TP2, TP3A, TP3B, TP3C};
    var s2 := {TP5, TP6, TP7, TP8, TP9};
    assert |s1| == 5 && |s2| == 5;
    assert s1 * s2 == {};
    assert AllPosts == s1 + s2;
    forall p: TarifPosten ensures p in AllPosts {
      assert p.TP1? || p.TP2? || p.TP3A? || p.TP3B? || p.TP3C? || p.TP5? || p.TP6? || p.TP7? || p.TP8? || p.TP9?;
    }
  }

  /** A table whose limits and fees rise from one step to the next, starting
      with a positive fee, is strict. */
  lemma StepwiseStrict(table: seq<FeeStep>)
    requires |table| > 0 && table[0].fee > 0.0
    requires forall i :: 0 <= i < |table| - 1 ==> table[i].limit < table[i + 1].limit && table[i].fee < table[i + 1].fee
    ensures StrictTable(table) && AscendingTable(table)
    ensures forall i :: 0 <= i < |table| ==> table[i].fee > 0.0
  {
    assert StepwiseIncreasing(Limits(table)) && StepwiseIncreasing(FeeAmounts(table));
    StepwiseIncreasingIsIncreasing(Limits(table));
    StepwiseIncreasingIsIncreasing(FeeAmounts(table));
    forall i | 0 < i < |table| ensures table[i].fee > 0.0 {
      assert FeeAmounts(table)[0] < FeeAmounts(table)[i];
    }
  }

  /** Each of the seven tables has strictly increasing limits and strictly
      increasing, positive fees. */
  lemma TableTp1IsStrict()
    ensures StrictTable(TableTp1) && AscendingTable(TableTp1)
  {
    StepwiseStrict(TableTp1);
  }

  lemma TableTp2IsStrict()
    ensures StrictTable(TableTp2) && AscendingTable(TableTp2)
  {
    StepwiseStrict(TableTp2);
  }

  lemma TableTp3aIsStrict()
    ensures StrictTable(TableTp3a) && AscendingTable(TableTp3a)
  {
    StepwiseStrict(TableTp3a);
  }

  lemma TableTp3bIsStrict()
    ensures StrictTable(TableTp3b) && AscendingTable(TableTp3b)
  {
    StepwiseStrict(TableTp3b);
  }

  lemma TableTp3cIsStrict()
    ensures StrictTable(TableTp3c) && AscendingTable(TableTp3c)
  {
    StepwiseStrict(TableTp3c);
  }

  lemma TableTp5IsStrict()
    ensures StrictTable(TableTp5) && AscendingTable(TableTp5)
  {
    StepwiseStrict(TableTp5);
  }

  lemma TableTp8IsStrict()
    ensures StrictTable(TableTp8) && AscendingTable(TableTp8)
  {
    StepwiseStrict(TableTp8);
  }

  /** The five standard tables share the same twelve limits, the last of which
      is 140,000. */
  lemma StandardTablesShareLimits()
    ensures Limits(TableTp1) == StandardLimits && Limits(TableTp2) == StandardLimits
    ensures Limits(TableTp3a) == StandardLimits && Limits(TableTp3b) == StandardLimits
    ensures Limits(TableTp3c) == StandardLimits
    ensures |StandardLimits| == 12 && StandardLimits[11] == 140000.0
  {
  }

  /** Where the two ancillary tables end. */
  lemma AncillaryTableEnds()
    ensures |TableTp5| == 6 && Last(TableTp5) == FeeStep(50000.0, 50.0)
    ensures |TableTp8| == 5 && Last(TableTp8) == FeeStep(25000.0, 135.0)
  {
  }
}
