/** The Langevin update loop of sample_s_t: L strictly sequential steps
    x <- x - f'(x) + epsilon * noise, with the per-step mean gradient norm accumulated. */
module Langevin {
  import opened Tensors

  /** Entry (i, j) of the gradient of the summed energy f(x).sum() with respect to
      the batch x; the network f itself is opaque. */
  type Gradient = (seq<Vec>, nat, nat) -> real

  /** The randn_like draw for Langevin step ell, state i, entry j. */
  type Noise = (nat, nat, nat) -> real

  /** The L2 norm of one flattened gradient row. */
  type Norm = Vec -> NonNeg

  /** f_prime: the gradient at x, laid out like x. */
  function GradAt(x: seq<Vec>, grad: Gradient): (g: seq<Vec>)
    ensures |g| == |x| && forall i :: 0 <= i < |x| ==> |g[i]| == |x[i]|
  {
    seq(|x|, i requires 0 <= i < |x| => seq(|x[i]|, j requires 0 <= j => grad(x, i, j)))
  }

  /** `x.data += - f_prime + epsilon * randn_like(x)` for the ell-th step. */
  function Update(x: seq<Vec>, fPrime: seq<Vec>, ell: nat, eps: real, noise: Noise): (y: seq<Vec>)
    requires |fPrime| == |x| && forall i :: 0 <= i < |x| ==> |fPrime[i]| == |x[i]|
    ensures |y| == |x| && forall i :: 0 <= i < |x| ==> |y[i]| == |x[i]|
  {
    seq(|x|, i requires 0 <= i < |x| =>
      seq(|x[i]|, j requires 0 <= j < |x[i]| => x[i][j] + (-fPrime[i][j] + eps * noise(ell, i, j))))
  }

  /** One Langevin update, the ell-th of the run, taken at the gradient of the current state. */
  function Step(x: seq<Vec>, ell: nat, eps: real, grad: Gradient, noise: Noise): (y: seq<Vec>)
    ensures |y| == |x| && forall i :: 0 <= i < |x| ==> |y[i]| == |x[i]|
  {
    Update(x, GradAt(x, grad), ell, eps, noise)
  }

  lemma StepEntry(x: seq<Vec>, ell: nat, eps: real, grad: Gradient, noise: Noise, i: nat, j: nat)
    requires i < |x| && j < |x[i]|
    ensures Step(x, ell, eps, grad, noise)[i][j] == x[i][j] - grad(x, i, j) + eps * noise(ell, i, j)
  {
  }

  /** The state after the first k updates of a run started at x0. */
  function Chain(x0: seq<Vec>, k: nat, eps: real, grad: Gradient, noise: Noise): seq<Vec>
  {
    if k == 0 then x0 else Step(Chain(x0, k - 1, eps, grad, noise), k - 1, eps, grad, noise)
  }

  /** `f_prime.view(B, -1).norm(dim=1).mean()` at state x. */
  function StepNorm(x: seq<Vec>, grad: Gradient, norm: Norm): (m: real)
    ensures 0.0 <= m
  {
    var g := GradAt(x, grad);
    var ns := seq(|g|, i requires 0 <= i < |g| => norm(g[i]) as real);
    MeanNonNeg(ns);
    Mean(ns)
  }

  /** r_s_t before the division: the per-step mean gradient norms of the first k updates,
      summed, each taken at the state its update starts from. */
  function AccNorm(x0: seq<Vec>, k: nat, eps: real, grad: Gradient, noise: Noise, norm: Norm): real {
    if k == 0 then 0.0
    else AccNorm(x0, k - 1, eps, grad, noise, norm) + StepNorm(Chain(x0, k - 1, eps, grad, noise), grad, norm)
  }

  /** The batch size and every state's element count survive any number of updates. */
  lemma {:induction false} ChainShape(x0: seq<Vec>, k: nat, eps: real, grad: Gradient, noise: Noise)
    ensures |Chain(x0, k, eps, grad, noise)| == |x0|
    ensures forall i :: 0 <= i < |x0| ==> |Chain(x0, k, eps, grad, noise)[i]| == |x0[i]|
  {
    if k > 0 {
      ChainShape(x0, k - 1, eps, grad, noise);
    }
  }

  /** The accumulated gradient magnitude is never negative. */
  lemma {:induction false} AccNormNonNeg(x0: seq<Vec>, k: nat, eps: real, grad: Gradient, noise: Noise, norm: Norm)
    ensures 0.0 <= AccNorm(x0, k, eps, grad, noise, norm)
  {
    if k > 0 {
      AccNormNonNeg(x0, k - 1, eps, grad, noise, norm);
    }
  }

  /** The reported gradient magnitude is never negative. */
  lemma AccNormAverageNonNeg(x0: seq<Vec>, k: nat, eps: real, grad: Gradient, noise: Noise, norm: Norm)
    requires k > 0
    ensures 0.0 <= AccNorm(x0, k, eps, grad, noise, norm) / (k as real)
  {
    AccNormNonNeg(x0, k, eps, grad, noise, norm);
    DivNonNeg(AccNorm(x0, k, eps, grad, noise, norm), k as real);
  }

  /** One more update adds the mean gradient norm at the state it starts from. */
  lemma AccNormStep(x0: seq<Vec>, k: nat, eps: real, grad: Gradient, noise: Noise, norm: Norm)
    ensures AccNorm(x0, k + 1, eps, grad, noise, norm)
            == AccNorm(x0, k, eps, grad, noise, norm) + StepNorm(Chain(x0, k, eps, grad, noise), grad, norm)
  {
  }

  /** One pass of the loop body: take the gradient at x, record its mean norm, update x. */
  method StepAndRecord(x0: seq<Vec>, ell: nat, x: seq<Vec>, acc: real, eps: real, grad: Gradient, noise: Noise, norm: Norm)
    returns (x': seq<Vec>, acc': real)
    requires x == Chain(x0, ell, eps, grad, noise)
    requires acc == AccNorm(x0, ell, eps, grad, noise, norm)
    ensures x' == Chain(x0, ell + 1, eps, grad, noise)
    ensures acc' == AccNorm(x0, ell + 1, eps, grad, noise, norm)
  {
    AccNormStep(x0, ell, eps, grad, noise, norm);
    acc' := acc + StepNorm(x, grad, norm);
    x' := Step(x, ell, eps, grad, noise);
  }

  /** The loop of sample_s_t as written: exactly L updates, each from the state the
      previous one produced, with r_s_t accumulating each step's mean gradient norm. */
  method RunSteps(x0: seq<Vec>, L: nat, eps: real, grad: Gradient, noise: Noise, norm: Norm)
    returns (x: seq<Vec>, acc: real)
    ensures acc == AccNorm(x0, L, eps, grad, noise, norm)
    ensures x == Chain(x0, L, eps, grad, noise)
  {
    x := x0;
    acc := 0.0;
    var ell := 0;
    while ell < L
      invariant 0 <= ell <= L
      invariant x == Chain(x0, ell, eps, grad, noise)
      invariant acc == AccNorm(x0, ell, eps, grad, noise, norm)
    {
      x, acc := StepAndRecord(x0, ell, x, acc, eps, grad, noise, norm);
      ell := ell + 1;
    }
  }

  /** sample_s_t's Langevin phase: the final state of the L-step chain, of the
      starting batch's shape, and the accumulated gradient magnitude divided by L. */
  method LangevinLoop(x0: seq<Vec>, L: nat, eps: real, grad: Gradient, noise: Noise, norm: Norm)
    returns (x: seq<Vec>, r: real)
    requires L > 0
    ensures r == AccNorm(x0, L, eps, grad, noise, norm) / (L as real)
    ensures 0.0 <= r
    ensures x == Chain(x0, L, eps, grad, noise)
    ensures |x| == |x0| && forall i :: 0 <= i < |x0| ==> |x[i]| == |x0[i]|
  {
    var acc;
    x, acc := RunSteps(x0, L, eps, grad, noise, norm);
    ChainShape(x0, L, eps, grad, noise);
    AccNormAverageNonNeg(x0, L, eps, grad, noise, norm);
    r := acc / (L as real);
  }

  /** The displacement of entry (i, j) the first k updates contribute, one term per
      update: step l subtracts the gradient at the state it starts from and adds
      epsilon times draw l. */
  function Displacement(x0: seq<Vec>, k: nat, eps: real, grad: Gradient, noise: Noise, i: nat, j: nat): real {
    if k == 0 then 0.0
    else Displacement(x0, k - 1, eps, grad, noise, i, j) + Increment(x0, k - 1, eps, grad, noise, i, j)
  }

  /** What update l adds to entry (i, j): epsilon times draw l minus the gradient there. */
  function Increment(x0: seq<Vec>, l: nat, eps: real, grad: Gradient, noise: Noise, i: nat, j: nat): real {
    eps * noise(l, i, j) - GradAlong(x0, l, eps, grad, noise, i, j)
  }

  /** After k updates an entry is its starting value plus exactly one increment per
      update, taken in order: no step is skipped or repeated, and step l uses draw l.
      The gradient term of each increment is read off the chain itself (the energy's
      gradient depends on the state it is taken at), so this rewrites Chain's recursion
      as an explicit sum rather than checking it against an independent reference. */
  lemma {:induction false} ChainTelescopes(x0: seq<Vec>, k: nat, eps: real, grad: Gradient, noise: Noise,
                                           i: nat, j: nat)
    requires i < |x0| && j < |x0[i]|
    ensures ChainEntry(x0, k, eps, grad, noise, i, j) == x0[i][j] + Displacement(x0, k, eps, grad, noise, i, j)
  {
    if k > 0 {
      var l := k - 1;
      ChainTelescopes(x0, l, eps, grad, noise, i, j);
      ChainEntryStep(x0, l, eps, grad, noise, i, j);
      assert Displacement(x0, k, eps, grad, noise, i, j)
          == Displacement(x0, l, eps, grad, noise, i, j) + Increment(x0, l, eps, grad, noise, i, j);
    }
  }

  /** Entry (i, j) of the state after k updates. */
  function ChainEntry(x0: seq<Vec>, k: nat, eps: real, grad: Gradient, noise: Noise, i: nat, j: nat): real
    requires i < |x0| && j < |x0[i]|
  {
    ChainShape(x0, k, eps, grad, noise);
    Chain(x0, k, eps, grad, noise)[i][j]
  }

  /** Entry (i, j) of the gradient the (k+1)-th update subtracts. */
  function GradAlong(x0: seq<Vec>, k: nat, eps: real, grad: Gradient, noise: Noise, i: nat, j: nat): real {
    grad(Chain(x0, k, eps, grad, noise), i, j)
  }

  lemma ChainEntryStep(x0: seq<Vec>, k: nat, eps: real, grad: Gradient, noise: Noise, i: nat, j: nat)
    requires i < |x0| && j < |x0[i]|
    ensures ChainEntry(x0, k + 1, eps, grad, noise, i, j)
         == ChainEntry(x0, k, eps, grad, noise, i, j) + Increment(x0, k, eps, grad, noise, i, j)
  {
    ChainShape(x0, k, eps, grad, noise);
    StepEntry(Chain(x0, k, eps, grad, noise), k, eps, grad, noise, i, j);
  }

  /** When each of the first k steps sees the same mean gradient norm m, their sum is
      m added up k times. */
  lemma {:induction false} AccNormConstant(x0: seq<Vec>, k: nat, eps: real, grad: Gradient, noise: Noise, norm: Norm, m: real)
    requires forall ell {:trigger Chain(x0, ell, eps, grad, noise)} ::
               0 <= ell < k ==> StepNorm(Chain(x0, ell, eps, grad, noise), grad, norm) == m
    ensures AccNorm(x0, k, eps, grad, noise, norm) == Repeat(m, k)
  {
    if k > 0 {
      var j := k - 1;
      AccNormConstant(x0, j, eps, grad, noise, norm, m);
      assert StepNorm(Chain(x0, j, eps, grad, noise), grad, norm) == m;
    }
  }

  /** When every step sees the same mean gradient norm m, the reported r_s_t is m. */
  lemma ConstantNormReport(x0: seq<Vec>, L: nat, eps: real, grad: Gradient, noise: Noise, norm: Norm, m: real)
    requires L > 0
    requires forall ell {:trigger Chain(x0, ell, eps, grad, noise)} ::
               0 <= ell < L ==> StepNorm(Chain(x0, ell, eps, grad, noise), grad, norm) == m
    ensures AccNorm(x0, L, eps, grad, noise, norm) / (L as real) == m
  {
    AccNormConstant(x0, L, eps, grad, noise, norm, m);
    RepeatAverage(m, L);
  }
}
