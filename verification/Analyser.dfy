/** Solutions, and the tolerance comparison every search loop relies on. */
module Analyser {

  /** A solution: its identity, its position in the search space, its objective value. */
  datatype Solution = Solution(id: nat, point: seq<real>, value: real)

  /** Two values closer than this are reported as equal. */
  const TOLERANCE: real := 0.00001

  function Abs(x: real): real {
    if x < 0.0 then -x else x
  }

  function CompareFunctionValue(left: real, right: real): int {
    if Abs(left - right) < TOLERANCE then 0
    else if left < right then -1
    else 1
  }

  /** The right operand wins every tie, so the comparison is not a total order. */
  function GetBestSolution(left: Solution, right: Solution): Solution {
    if CompareFunctionValue(left.value, right.value) < 0 then left else right
  }

  function Compare(left: Solution, right: Solution): int {
    if left.point == right.point then 0
    else if CompareFunctionValue(left.value, right.value) < 0 then -1
    else 1
  }

  /** The stream reduction by `GetBestSolution`, from the left. */
  function FindBestSolution(s: seq<Solution>): Solution
    requires s != []
  {
    if |s| == 1 then s[0] else GetBestSolution(FindBestSolution(s[..|s| - 1]), s[|s| - 1])
  }

  lemma {:induction false} BestIsMember(s: seq<Solution>)
    requires s != []
    ensures FindBestSolution(s) in s
  {
    if |s| > 1 {
      BestIsMember(s[..|s| - 1]);
    }
  }

  /** The reduction drifts upwards by less than one tolerance for each solution it reads. */
  lemma {:induction false} BestNearMinimum(s: seq<Solution>, k: nat)
    requires k < |s|
    ensures FindBestSolution(s).value <= s[k].value + (|s| - 1 - k) as real * TOLERANCE
    ensures |s| > k + 1 ==> FindBestSolution(s).value < s[k].value + (|s| - 1 - k) as real * TOLERANCE
  {
    var last := |s| - 1;
    if k < last {
      BestNearMinimum(s[..last], k);
    }
  }

  /** The result is at most the true minimum plus (n - 1) tolerances. */
  lemma BestWithinDrift(s: seq<Solution>)
    requires s != []
    ensures FindBestSolution(s) in s
    ensures forall x :: x in s ==> FindBestSolution(s).value <= x.value + (|s| - 1) as real * TOLERANCE
  {
    BestIsMember(s);
    forall x | x in s
      ensures FindBestSolution(s).value <= x.value + (|s| - 1) as real * TOLERANCE
    {
      var k :| 0 <= k < |s| && s[k] == x;
      BestNearMinimum(s, k);
    }
  }

  /** `p` is the last position that holds the least value. */
  ghost predicate LastMinimum(s: seq<Solution>, p: nat) {
    p < |s|
    && (forall i :: 0 <= i < |s| ==> s[p].value <= s[i].value)
    && (forall i :: p < i < |s| ==> s[p].value < s[i].value)
  }

  /** The exact condition under which the reduction returns a true minimum: every solution read
      after the last minimum is at least one tolerance above it. */
  lemma {:induction false} BestIsMinimumIff(s: seq<Solution>, p: nat)
    requires LastMinimum(s, p)
    ensures FindBestSolution(s).value == s[p].value
       <==> forall i :: p < i < |s| ==> s[p].value + TOLERANCE <= s[i].value
    ensures FindBestSolution(s).value == s[p].value ==> FindBestSolution(s) == s[p]
  {
    var last := |s| - 1;
    if last == 0 {
      return;
    }
    var init := s[..last];
    BestIsMember(init);
    if p == last {
      assert FindBestSolution(s) == s[p];
    } else {
      assert forall i :: 0 <= i < |init| ==> init[i] == s[i];
      BestIsMinimumIff(init, p);
      assert (forall i :: p < i < |s| ==> s[p].value + TOLERANCE <= s[i].value)
        <==> (forall i :: p < i < last ==> s[p].value + TOLERANCE <= s[i].value)
             && s[p].value + TOLERANCE <= s[last].value;
    }
  }

  /** The minimum is found whenever it is unique and separated from all other values. */
  lemma SeparatedMinimumIsFound(s: seq<Solution>, p: nat)
    requires p < |s|
    requires forall i :: 0 <= i < |s| && i != p ==> s[p].value + TOLERANCE <= s[i].value
    ensures FindBestSolution(s) == s[p]
  {
    BestIsMinimumIff(s, p);
  }

  /** Three values, each within the tolerance of its neighbour: the worst of them is returned. */
  lemma DriftReturnsTheWorst(a: Solution, b: Solution, c: Solution)
    requires a.value == 0.0 && b.value == 0.000009 && c.value == 0.000018
    ensures FindBestSolution([a, b, c]) == c
    ensures c.value > a.value + TOLERANCE
  {
    assert [a, b][..1] == [a];
    assert FindBestSolution([a, b]) == b;
    assert [a, b, c][..2] == [a, b];
  }
}
