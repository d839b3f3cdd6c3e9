/**
 * `_check_if_zero`, defined identically in both driver scripts: the number of entries
 * equal to 0.0 is counted and compared with the length of the vector. Entries are
 * reals here; a floating-point NaN, which never compares equal to zero, has no
 * counterpart.
 */
module ZeroCheck {

  /** Number of entries equal to zero (`np.sum(vector == 0.0)`). */
  function CountZeros(v: seq<real>): (n: nat)
    ensures n <= |v|
    ensures n == multiset(v)[0.0]
  {
    if |v| == 0 then 0
    else
      assert v == [v[0]] + v[1..];
      (if v[0] == 0.0 then 1 else 0) + CountZeros(v[1..])
  }

  /** `_check_if_zero(vector)`: the zero count equals the length. */
  predicate AllZero(v: seq<real>)
  {
    CountZeros(v) == |v|
  }

  /** The count test is exactly "every entry is zero"; in particular the empty vector passes. */
  lemma {:induction false} AllZeroIff(v: seq<real>)
    ensures AllZero(v) <==> forall i :: 0 <= i < |v| ==> v[i] == 0.0
  {
    if |v| > 0 {
      AllZeroIff(v[1..]);
      assert forall i :: 1 <= i < |v| ==> v[i] == v[1..][i - 1];
    }
  }
}
