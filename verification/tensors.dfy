/** Batches of sample states and the scalar reductions the trainer applies to them. */
module Tensors {

  /** One sample state, flattened from its [C, H, W] layout. */
  type Vec = seq<real>

  /** A random draw of torch.rand: a value in [0, 1). */
  type Unit = r: real | 0.0 <= r < 1.0

  /** A value torch reports as a norm. */
  type NonNeg = r: real | 0.0 <= r

  /** Every state of the batch has `dim` entries. */
  ghost predicate Shaped(xs: seq<Vec>, dim: nat) {
    forall i :: 0 <= i < |xs| ==> |xs[i]| == dim
  }

  function Min(a: nat, b: nat): nat {
    if a <= b then a else b
  }

  function Sum(s: seq<real>): real {
    if |s| == 0 then 0.0 else Sum(s[..|s| - 1]) + s[|s| - 1]
  }

  /** Mean of a sequence; an empty mean is taken to be 0 (torch yields NaN). */
  function Mean(s: seq<real>): real {
    if |s| == 0 then 0.0 else Sum(s) / (|s| as real)
  }

  lemma {:induction false} SumNonNeg(s: seq<real>)
    requires forall i :: 0 <= i < |s| ==> 0.0 <= s[i]
    ensures 0.0 <= Sum(s)
  {
    if |s| > 0 {
      SumNonNeg(s[..|s| - 1]);
    }
  }

  /** c added up k times. */
  function Repeat(c: real, k: nat): real {
    if k == 0 then 0.0 else Repeat(c, k - 1) + c
  }

  /** The average of k copies of c is c. */
  lemma {:induction false} RepeatAverage(c: real, k: nat)
    requires k > 0
    ensures Repeat(c, k) / (k as real) == c
  {
    RepeatProduct(c, k);
    DivOfProduct(k as real, c);
  }

  lemma {:induction false} RepeatProduct(c: real, k: nat)
    ensures Repeat(c, k) == (k as real) * c
  {
    if k > 0 {
      RepeatProduct(c, k - 1);
      MulSucc(k - 1, c);
    }
  }

  function Abs(a: real): real {
    if a < 0.0 then -a else a
  }

  lemma MulNonNeg(a: real, b: real)
    requires 0.0 <= a && 0.0 <= b
    ensures 0.0 <= a * b
  {
  }

  lemma DivOfProduct(n: real, m: real)
    requires n > 0.0
    ensures (n * m) / n == m
  {
  }

  lemma DivNonNeg(a: real, n: real)
    requires 0.0 <= a && n > 0.0
    ensures 0.0 <= a / n
  {
  }

  lemma MulSucc(k: nat, c: real)
    ensures ((k + 1) as real) * c == (k as real) * c + c
  {
  }

  lemma MeanNonNeg(s: seq<real>)
    requires forall i :: 0 <= i < |s| ==> 0.0 <= s[i]
    ensures 0.0 <= Mean(s)
  {
    SumNonNeg(s);
  }

  /** No index occurs twice. */
  ghost predicate Distinct(s: seq<nat>) {
    forall i, j :: 0 <= i < j < |s| ==> s[i] != s[j]
  }

  /** Every index addresses one of `n` slots. */
  ghost predicate InRange(s: seq<nat>, n: nat) {
    forall i :: 0 <= i < |s| ==> s[i] < n
  }

  /** What torch.randperm(n) returns: each of 0 .. n-1 exactly once. */
  ghost predicate IsPermutation(p: seq<nat>, n: nat) {
    |p| == n && Distinct(p) && InRange(p, n)
  }
}
