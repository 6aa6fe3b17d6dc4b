/** Java's polynomial hash codes, `String.hashCode()` and
    `Objects.hash(...)`: `h = 31 * h + x` over the elements, in `int`
    arithmetic. */
module JavaHash {
  import opened JavaInt

  /** `31^n`, exactly. */
  function Pow31(n: nat): int {
    if n == 0 then 1 else 31 * Pow31(n - 1)
  }

  /** `xs[0] * 31^(n-1) + ... + xs[n-1]`, exactly. */
  function WeightedSum(xs: seq<int>): int {
    if xs == [] then 0 else xs[0] * Pow31(|xs| - 1) + WeightedSum(xs[1..])
  }

  /** One more element at the end multiplies what is there by 31. */
  lemma {:induction false} WeightedSumSnoc(xs: seq<int>, x: int)
    ensures WeightedSum(xs + [x]) == 31 * WeightedSum(xs) + x
  {
    if xs != [] {
      assert (xs + [x])[1..] == xs[1..] + [x];
      WeightedSumSnoc(xs[1..], x);
      calc {
        WeightedSum(xs + [x]);
        xs[0] * Pow31(|xs|) + WeightedSum(xs[1..] + [x]);
        xs[0] * (31 * Pow31(|xs| - 1)) + (31 * WeightedSum(xs[1..]) + x);
        31 * (xs[0] * Pow31(|xs| - 1) + WeightedSum(xs[1..])) + x;
      }
    }
  }

  /** The exact value of the loop `h = seed; for (x : xs) h = 31 * h + x;`. */
  function Exact(seed: int, xs: seq<int>): int {
    seed * Pow31(|xs|) + WeightedSum(xs)
  }

  /** One more step of the loop on the exact value. */
  lemma ExactSnoc(seed: int, xs: seq<int>, x: int)
    ensures Exact(seed, xs + [x]) == 31 * Exact(seed, xs) + x
  {
    WeightedSumSnoc(xs, x);
    assert Pow31(|xs + [x]|) == 31 * Pow31(|xs|);
    assert seed * (31 * Pow31(|xs|)) == 31 * (seed * Pow31(|xs|));
  }

  /** The same loop in Java `int` arithmetic: the exact value, wrapped once. */
  function PolyHash(seed: int32, xs: seq<int>): (h: int32)
    ensures h == Wrap(Exact(seed as int, xs))
  {
    if xs == [] then seed
    else
      var init, last := xs[..|xs| - 1], xs[|xs| - 1];
      var h0 := PolyHash(seed, init);
      assert xs == init + [last];
      ExactSnoc(seed as int, init, last);
      WrapMulAddWrapped(31, Exact(seed as int, init), last);
      Wrap(31 * h0 as int + last)
  }

  /** The code of each character. */
  function Codes(s: string): (r: seq<int>)
    ensures |r| == |s| && forall i :: 0 <= i < |s| ==> r[i] == s[i] as int
  {
    seq(|s|, i requires 0 <= i < |s| => s[i] as int)
  }

  /** `String.hashCode()`: `s[0]*31^(n-1) + ... + s[n-1]`, wrapped; the
      empty string hashes to 0. */
  function StringHash(s: string): (h: int32)
    ensures h == Wrap(Exact(0, Codes(s)))
    ensures s == [] ==> h == 0
  {
    PolyHash(0, Codes(s))
  }

  /** `Objects.hash(a, b, c)`, given the elements' own hash codes (0 for
      `null`): `31^3 + 31^2 a + 31 b + c`, wrapped. */
  function Hash3(a: int32, b: int32, c: int32): (h: int32)
    ensures h == Wrap(29791 + 961 * a as int + 31 * b as int + c as int)
  {
    var xs := [a as int, b as int, c as int];
    assert Exact(1, xs) == 29791 + 961 * a as int + 31 * b as int + c as int by {
      assert Pow31(0) == 1 && Pow31(1) == 31 && Pow31(2) == 961 && Pow31(3) == 29791;
      assert xs[1..] == [b as int, c as int] && xs[1..][1..] == [c as int] && xs[1..][1..][1..] == [];
      assert WeightedSum([c as int]) == c as int;
      assert WeightedSum([b as int, c as int]) == 31 * b as int + c as int;
    }
    PolyHash(1, xs)
  }
}
