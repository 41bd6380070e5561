/** The integer helpers of helpers.go: Sum, FindMinAndMax and ApplyJitter. */
module Helpers {

  /** Reference definition of the sum of a sequence, folded from the front. */
  function SumOf(s: seq<int>): int
  {
    if s == [] then 0 else s[0] + SumOf(s[1..])
  }

  /** Appending one element adds it to the sum: the invariant of the loop in Sum. */
  lemma {:induction false} SumAppend(s: seq<int>, v: int)
    ensures SumOf(s + [v]) == SumOf(s) + v
  {
    if s == [] {
      assert [] + [v] == [v];
    } else {
      assert (s + [v])[1..] == s[1..] + [v];
      SumAppend(s[1..], v);
    }
  }

  /** Sum: adds up the elements with an accumulator, as the range loop does. */
  method Sum(a: seq<int>) returns (result: int)
    ensures result == SumOf(a)
  {
    result := 0;
    var i := 0;
    while i < |a|
      invariant 0 <= i <= |a|
      invariant result == SumOf(a[..i])
    {
      assert a[..i + 1] == a[..i] + [a[i]];
      SumAppend(a[..i], a[i]);
      result := result + a[i];
      i := i + 1;
    }
    assert a[..i] == a;
  }

  /** Reference definition of the maximum of a non-empty sequence, scanned left to right. */
  function MaxOf(s: seq<int>): (m: int)
    requires |s| > 0
    ensures m in s
    ensures forall i :: 0 <= i < |s| ==> s[i] <= m
  {
    if |s| == 1 then s[0]
    else
      var m := MaxOf(s[..|s| - 1]);
      assert forall i :: 0 <= i < |s| - 1 ==> s[i] == s[..|s| - 1][i];
      if s[|s| - 1] > m then s[|s| - 1] else m
  }

  /** Reference definition of the minimum of a non-empty sequence, scanned left to right. */
  function MinOf(s: seq<int>): (m: int)
    requires |s| > 0
    ensures m in s
    ensures forall i :: 0 <= i < |s| ==> m <= s[i]
  {
    if |s| == 1 then s[0]
    else
      var m := MinOf(s[..|s| - 1]);
      assert forall i :: 0 <= i < |s| - 1 ==> s[i] == s[..|s| - 1][i];
      if s[|s| - 1] < m then s[|s| - 1] else m
  }

  /**
   * FindMinAndMax: one pass over a non-empty slice; indexing a[0] is what
   * makes the empty slice a panic, hence the precondition.
   */
  method FindMinAndMax(a: seq<int>) returns (min: int, max: int)
    requires |a| > 0
    ensures min in a && max in a
    ensures forall i :: 0 <= i < |a| ==> min <= a[i] <= max
    ensures min == MinOf(a) && max == MaxOf(a)
  {
    min := a[0];
    max := a[0];
    var i := 0;
    while i < |a|
      invariant 0 <= i <= |a|
      invariant min == MinOf(a[..if i == 0 then 1 else i])
      invariant max == MaxOf(a[..if i == 0 then 1 else i])
    {
      if i > 0 {
        assert a[..i + 1][..i] == a[..i];
      }
      var value := a[i];
      if value < min {
        min := value;
      }
      if value > max {
        max := value;
      }
      i := i + 1;
    }
    assert a[..i] == a;
  }

  /** Minimum and maximum of a single-element slice are that element. */
  lemma MinMaxSingleton(v: int)
    ensures MinOf([v]) == v && MaxOf([v]) == v
  {
  }

  /** The minimum never exceeds the maximum. */
  lemma MinAtMostMax(s: seq<int>)
    requires |s| > 0
    ensures MinOf(s) <= MaxOf(s)
  {
  }

  /** The deviation ApplyJitter uses: a quarter of the input, rounded toward zero. */
  function Deviation(input: int): int
    requires input >= 0
  {
    input / 4
  }

  /** A draw rand.Intn(2*d) can return: Intn panics unless 2*d > 0. */
  predicate ValidDraw(input: int, r: int)
  {
    input >= 4 && 0 <= r < 2 * (input / 4)
  }

  /**
   * ApplyJitter: input - d + r with d a quarter of the input and r the random draw,
   * which lands in [input - d, input + d), so between 3/4 and 5/4 of the input.
   */
  function ApplyJitter(input: int, r: int): (output: int)
    requires ValidDraw(input, r)
    ensures input - Deviation(input) <= output < input + Deviation(input)
    ensures 3 * input <= 4 * output < 5 * input
    ensures output > 0
  {
    input - Deviation(input) + r
  }

  /** rand.Intn accepts 2*d exactly when the input is at least 4. */
  lemma JitterDefinedIff(input: int)
    requires input >= 0
    ensures 2 * Deviation(input) > 0 <==> input >= 4
  {
  }

  /** Worked values: min and max of [3, 7, 1, 9] are 1 and 9; [2, 0, 4] sums to 6; [] to 0. */
  lemma HelperExamples()
    ensures MinOf([3, 7, 1, 9]) == 1 && MaxOf([3, 7, 1, 9]) == 9
    ensures SumOf([2, 0, 4]) == 6 && SumOf([]) == 0
  {
    assert [3, 7, 1, 9][..3] == [3, 7, 1];
    assert [3, 7, 1][..2] == [3, 7];
    assert [3, 7][..1] == [3];
  }
}
