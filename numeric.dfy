/**
 * Arithmetic over Dafny `real`, standing in for the Python floats and the numpy
 * reductions (`np.mean`, accumulation with `+=`) that the training scripts use.
 */
module Numeric {

  /** Left-to-right sum, the value a `total += x` accumulator ends with. */
  function Sum(xs: seq<real>): real
    decreases |xs|
  {
    if xs == [] then 0.0 else Sum(xs[..|xs| - 1]) + xs[|xs| - 1]
  }

  lemma SumAppend(xs: seq<real>, x: real)
    ensures Sum(xs + [x]) == Sum(xs) + x
  {
    assert (xs + [x])[..|xs|] == xs;
  }

  /** Every element lies in [lo, hi], so the sum lies in [n lo, n hi]. */
  lemma {:induction false} SumBounds(xs: seq<real>, lo: real, hi: real)
    requires forall i | 0 <= i < |xs| :: lo <= xs[i] <= hi
    ensures |xs| as real * lo <= Sum(xs) <= |xs| as real * hi
  {
    if xs != [] {
      SumBounds(xs[..|xs| - 1], lo, hi);
    }
  }

  /** `np.mean` of a non-empty list. */
  function Mean(xs: seq<real>): real
    requires |xs| > 0
  {
    Sum(xs) / |xs| as real
  }

  /** The mean of values in [lo, hi] lies in [lo, hi]. */
  lemma MeanBounds(xs: seq<real>, lo: real, hi: real)
    requires |xs| > 0
    requires forall i | 0 <= i < |xs| :: lo <= xs[i] <= hi
    ensures lo <= Mean(xs) <= hi
  {
    var n := |xs| as real;
    SumBounds(xs, lo, hi);
    assert Sum(xs) / n >= (n * lo) / n;
    assert Sum(xs) / n <= (n * hi) / n;
  }

  /** The sum of `n` copies of `c` is `n c`. */
  lemma {:induction false} SumConstant(xs: seq<real>, c: real)
    requires forall i | 0 <= i < |xs| :: xs[i] == c
    ensures Sum(xs) == |xs| as real * c
  {
    if xs != [] {
      SumConstant(xs[..|xs| - 1], c);
    }
  }

  /** Number of `True` entries: `sum(flags)` in Python. */
  function CountTrue(bs: seq<bool>): (n: nat)
    ensures n <= |bs|
    ensures n == 0 <==> forall i | 0 <= i < |bs| :: !bs[i]
    decreases |bs|
  {
    if bs == [] then 0
    else CountTrue(bs[..|bs| - 1]) + (if bs[|bs| - 1] then 1 else 0)
  }

  lemma CountTrueAppend(bs: seq<bool>, b: bool)
    ensures CountTrue(bs + [b]) == CountTrue(bs) + (if b then 1 else 0)
  {
    assert (bs + [b])[..|bs|] == bs;
  }

  /** Booleans as numpy sees them when it averages them: 1.0 and 0.0. */
  function AsReals(bs: seq<bool>): (r: seq<real>)
    ensures |r| == |bs|
    ensures forall i | 0 <= i < |bs| :: r[i] == if bs[i] then 1.0 else 0.0
  {
    seq(|bs|, i requires 0 <= i < |bs| => if bs[i] then 1.0 else 0.0)
  }

  /** `np.mean(flags)` is the fraction of `True` flags. */
  lemma {:induction false} SumOfFlags(bs: seq<bool>)
    ensures Sum(AsReals(bs)) == CountTrue(bs) as real
  {
    if bs != [] {
      var init := bs[..|bs| - 1];
      SumOfFlags(init);
      assert AsReals(bs)[..|bs| - 1] == AsReals(init);
    }
  }

  /** The mean of a list of flags is the fraction of them that are set. */
  lemma MeanOfFlags(bs: seq<bool>, n: nat)
    requires n == |bs| > 0
    ensures Mean(AsReals(bs)) == CountTrue(bs) as real / n as real
  {
    SumOfFlags(bs);
  }

  /** A sum of non-negative terms is non-negative, and zero exactly when every term is. */
  lemma {:induction false} SumNonNegative(xs: seq<real>)
    requires forall i | 0 <= i < |xs| :: xs[i] >= 0.0
    ensures Sum(xs) >= 0.0
    ensures Sum(xs) == 0.0 <==> forall i | 0 <= i < |xs| :: xs[i] == 0.0
  {
    if xs != [] {
      var init := xs[..|xs| - 1];
      SumNonNegative(init);
      if Sum(xs) == 0.0 {
        forall i | 0 <= i < |xs| ensures xs[i] == 0.0 {
          if i < |xs| - 1 {
            assert xs[i] == init[i];
          }
        }
      }
      if forall i | 0 <= i < |xs| :: xs[i] == 0.0 {
        assert forall i | 0 <= i < |init| :: init[i] == xs[i];
      }
    }
  }

  /** Every element multiplied by `c`. */
  function Scaled(xs: seq<real>, c: real): (r: seq<real>)
    ensures |r| == |xs|
    ensures forall i | 0 <= i < |xs| :: r[i] == xs[i] * c
  {
    seq(|xs|, i requires 0 <= i < |xs| => xs[i] * c)
  }

  /** Dividing by `m` is scaling by `1 / m`. */
  lemma DivideIsScale(x: real, m: real)
    requires m != 0.0
    ensures x * (1.0 / m) == x / m
  {
  }

  /** A common factor comes out of a sum. */
  lemma {:induction false} SumScaled(xs: seq<real>, c: real)
    ensures Sum(Scaled(xs, c)) == Sum(xs) * c
  {
    if xs != [] {
      var init := xs[..|xs| - 1];
      SumScaled(init, c);
      var whole, part := Scaled(xs, c), Scaled(init, c);
      forall i | 0 <= i < |init| ensures whole[i] == part[i] {
        assert init[i] == xs[i];
      }
      assert whole[..|xs| - 1] == part;
    }
  }

  /** The mean of a constant list is that constant. */
  lemma MeanConstant(xs: seq<real>, c: real)
    requires |xs| > 0
    requires forall i | 0 <= i < |xs| :: xs[i] == c
    ensures Mean(xs) == c
  {
    SumConstant(xs, c);
  }

  function Pow(x: real, n: nat): real
  {
    if n == 0 then 1.0 else x * Pow(x, n - 1)
  }

  function MaxInt(a: int, b: int): int
  {
    if a >= b then a else b
  }

  function MaxReal(a: real, b: real): real
  {
    if a >= b then a else b
  }
}
