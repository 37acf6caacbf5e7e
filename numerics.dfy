/**
 * Arithmetic shared by the vote builder: Java's 32-bit `int`, the narrowing
 * cast `(int) x` from a double, and sums of real sequences.
 */
module Numerics {

  const INT_MIN: int := -0x8000_0000
  const INT_MAX: int := 0x7fff_ffff

  /** Java's `int`. */
  type Int32 = x: int | -0x8000_0000 <= x < 0x8000_0000

  function Max(a: int, b: int): int {
    if a < b then b else a
  }

  /**
   * Java's narrowing conversion `(int) x` of a finite double: it rounds
   * toward zero and saturates at the ends of the `int` range.
   */
  function JavaIntCast(x: real): (r: Int32)
    ensures INT_MIN as real <= x < INT_MAX as real + 1.0 && 0.0 <= x ==>
              0 <= r && r as real <= x < r as real + 1.0
    ensures INT_MIN as real - 1.0 < x <= INT_MAX as real && x < 0.0 ==>
              r <= 0 && r as real - 1.0 < x <= r as real
    ensures INT_MAX as real + 1.0 <= x ==> r == INT_MAX
    ensures x <= INT_MIN as real - 1.0 ==> r == INT_MIN
  {
    var t := if x >= 0.0 then x.Floor else -((-x).Floor);
    if t < INT_MIN then INT_MIN else if t > INT_MAX then INT_MAX else t
  }

  function Sum(s: seq<real>): real {
    if |s| == 0 then 0.0 else s[0] + Sum(s[1..])
  }

  /** Every element of `s` divided by `c`. */
  function Divided(s: seq<real>, c: real): seq<real>
    requires c != 0.0
  {
    seq(|s|, k requires 0 <= k < |s| => s[k] / c)
  }

  /** Utils.normalize(doubles, sum): every element divided by a sum that is not zero. */
  method NormalizeArray(doubles: array<real>, sum: real)
    requires sum != 0.0
    modifies doubles
    ensures doubles[..] == Divided(old(doubles[..]), sum)
  {
    for i := 0 to doubles.Length
      invariant forall k :: 0 <= k < i ==> doubles[k] == old(doubles[k]) / sum
      invariant forall k :: i <= k < doubles.Length ==> doubles[k] == old(doubles[k])
    {
      doubles[i] := doubles[i] / sum;
    }
  }

  /** Adding `w` to one slot adds `w` to the sum. */
  lemma {:induction false} SumUpdate(s: seq<real>, k: nat, w: real)
    requires k < |s|
    ensures Sum(s[k := s[k] + w]) == Sum(s) + w
  {
    if k == 0 {
      assert s[k := s[k] + w][1..] == s[1..];
    } else {
      assert s[k := s[k] + w][1..] == s[1..][k - 1 := s[k] + w];
      SumUpdate(s[1..], k - 1, w);
    }
  }

  /** `n` copies of `c` add up to `n * c`. */
  lemma {:induction false} SumConstant(n: nat, c: real)
    ensures Sum(seq(n, _ => c)) == n as real * c
  {
    if n > 0 {
      assert seq(n, _ => c)[1..] == seq(n - 1, _ => c);
      SumConstant(n - 1, c);
    }
  }

  /** Dividing every element by `c` divides the sum by `c`. */
  lemma {:induction false} SumDivided(s: seq<real>, c: real)
    requires c != 0.0
    ensures Sum(Divided(s, c)) == Sum(s) / c
  {
    if |s| > 0 {
      assert Divided(s, c)[1..] == Divided(s[1..], c);
      SumDivided(s[1..], c);
      assert Divided(s, c)[0] == s[0] / c;
      assert s[0] / c + Sum(s[1..]) / c == (s[0] + Sum(s[1..])) / c;
    }
  }
}
