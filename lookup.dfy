/** What the table scan of getStandardFee and getScaledFee returns, in terms
    of the brackets the table's limits define. */
module TableLookup {
  import opened Brackets
  import opened Fees
  import opened FeeLogic

  /** The scan is boundary-inclusive: a value above limit k - 1 and at or
      below limit k gets the fee of step k, so a value equal to a limit gets
      that limit's own fee and not the next one's. */
  lemma TableFeeInBracket(table: seq<FeeStep>, value: real, k: nat)
    requires Increasing(Limits(table)) && k < |table|
    requires (k == 0 || table[k - 1].limit < value) && value <= table[k].limit
    ensures TableFee(table, value) == Some(table[k].fee)
  {
    forall j | 0 <= j < k ensures table[j].limit < value {
      if j < k - 1 {
        assert Limits(table)[j] < Limits(table)[k - 1];
      }
    }
    TableFeeFromFirstCovering(table, value, 0, k);
  }

  /** The scan falls through exactly when the value lies above the last limit:
      the bracket reading of the limits runs off the table just then. */
  lemma TableFeeNoneIffAboveLast(table: seq<FeeStep>, value: real)
    requires |table| > 0 && Increasing(Limits(table))
    ensures TableFee(table, value).None? <==> Last(table).limit < value
  {
    TableFeeIsFirstCovering(table, value);
    CoveredIffAtMostLast(Limits(table), value);
  }

  /** In an ascending table a larger value never gets a smaller table fee, and
      no table fee exceeds the last one. */
  lemma TableFeeMonotone(table: seq<FeeStep>, x: real, y: real)
    requires AscendingTable(table) && x <= y
    requires TableFee(table, y).Some?
    ensures TableFee(table, x).Some?
    ensures TableFee(table, x).value <= TableFee(table, y).value <= Last(table).fee
  {
    var j := TableFeeFromFound(table, y, 0);
    TableFeeFromNone(table, x, 0);
    var i := TableFeeFromFound(table, x, 0);
    var last := |table| - 1;
    assert table[i].fee <= table[j].fee by {
      if i < j {
        assert FeeAmounts(table)[i] <= FeeAmounts(table)[j];
      }
    }
    assert table[j].fee <= table[last].fee by {
      if j < last {
        assert FeeAmounts(table)[j] <= FeeAmounts(table)[last];
      }
    }
  }
}
