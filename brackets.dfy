/** Bracket tables: upper limits ordered from low to high, and the lookup of
    the first bracket whose inclusive upper limit covers a value. Both the
    attorney fee tables and the court fee table are read this way. */
module Brackets {

  /** Every earlier entry lies strictly below every later one. */
  predicate Increasing(s: seq<real>) {
    forall i, j :: 0 <= i < j < |s| ==> s[i] < s[j]
  }

  /** Every earlier entry lies at or below every later one. */
  predicate NonDecreasing(s: seq<real>) {
    forall i, j :: 0 <= i < j < |s| ==> s[i] <= s[j]
  }

  /** Neighbour-by-neighbour forms: what one reads off a literal table. */
  predicate StepwiseIncreasing(s: seq<real>) {
    forall i :: 0 <= i < |s| - 1 ==> s[i] < s[i + 1]
  }

  predicate StepwiseNonDecreasing(s: seq<real>) {
    forall i :: 0 <= i < |s| - 1 ==> s[i] <= s[i + 1]
  }

  lemma {:induction false} StepwiseIncreasingIsIncreasing(s: seq<real>)
    requires StepwiseIncreasing(s)
    ensures Increasing(s)
  {
    if |s| > 1 {
      var tail := s[1..];
      assert StepwiseIncreasing(tail) by {
        forall i | 0 <= i < |tail| - 1 ensures tail[i] < tail[i + 1] {
          assert tail[i] == s[i + 1] && tail[i + 1] == s[i + 2];
        }
      }
      StepwiseIncreasingIsIncreasing(tail);
      forall i, j | 0 <= i < j < |s| ensures s[i] < s[j] {
        if i > 0 {
          assert s[i] == tail[i - 1] && s[j] == tail[j - 1];
        } else if j > 1 {
          assert s[0] < s[1] && s[1] == tail[0] && s[j] == tail[j - 1];
        }
      }
    }
  }

  lemma {:induction false} StepwiseNonDecreasingIsNonDecreasing(s: seq<real>)
    requires StepwiseNonDecreasing(s)
    ensures NonDecreasing(s)
  {
    if |s| > 1 {
      var tail := s[1..];
      assert StepwiseNonDecreasing(tail) by {
        forall i | 0 <= i < |tail| - 1 ensures tail[i] <= tail[i + 1] {
          assert tail[i] == s[i + 1] && tail[i + 1] == s[i + 2];
        }
      }
      StepwiseNonDecreasingIsNonDecreasing(tail);
      forall i, j | 0 <= i < j < |s| ensures s[i] <= s[j] {
        if i > 0 {
          assert s[i] == tail[i - 1] && s[j] == tail[j - 1];
        } else if j > 1 {
          assert s[0] <= s[1] && s[1] == tail[0] && s[j] == tail[j - 1];
        }
      }
    }
  }

  /** Index of the first limit that is at least `x`, or `|limits|` when every
      limit lies below `x`: the bracket an inclusive "up to and including"
      table assigns to `x`. */
  function FirstAtLeast(limits: seq<real>, x: real): (i: nat)
    ensures i <= |limits|
    ensures forall j :: 0 <= j < i ==> limits[j] < x
    ensures i < |limits| ==> x <= limits[i]
  {
    if |limits| == 0 then 0
    else if x <= limits[0] then 0
    else 1 + FirstAtLeast(limits[1..], x)
  }

  /** In an increasing table a value belongs to bracket `k` exactly when it lies
      above the previous limit and at or below limit `k`; in particular a value
      equal to a limit belongs to that limit's own bracket. */
  lemma FirstAtLeastInBracket(limits: seq<real>, x: real, k: nat)
    requires Increasing(limits) && k < |limits|
    requires (k == 0 || limits[k - 1] < x) && x <= limits[k]
    ensures FirstAtLeast(limits, x) == k
  {
  }

  /** In an increasing, non-empty table a value is covered by some bracket
      exactly when it does not exceed the last limit. */
  lemma CoveredIffAtMostLast(limits: seq<real>, x: real)
    requires Increasing(limits) && |limits| > 0
    ensures FirstAtLeast(limits, x) < |limits| <==> x <= limits[|limits| - 1]
  {
    var i := FirstAtLeast(limits, x);
    if i < |limits| && i < |limits| - 1 {
      assert limits[i] < limits[|limits| - 1];
    }
  }

  /** A larger value never falls into an earlier bracket. */
  lemma FirstAtLeastMonotone(limits: seq<real>, x: real, y: real)
    requires x <= y
    ensures FirstAtLeast(limits, x) <= FirstAtLeast(limits, y)
  {
  }
}
