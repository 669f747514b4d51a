/** The scalar bookkeeping of the training loop: the optimizer setup with its
    learning-rate prescale, the loss d_s_t, the learning-rate annealing and the
    iteration-counter tests that decide when to log, plot and sample on the side. */
module Schedule {
  import opened Errors

  // ---------------------------------------------------------------------------
  // Optimizer setup
  // ---------------------------------------------------------------------------

  /** The two entries of optim_bank. */
  datatype Optimizer = Adam | Sgd

  /** The learning rates the optimizer is built with, after the prescale. */
  datatype OptimizerSetup = OptimizerSetup(kind: Optimizer, lrInit: real, lrMin: real)

  function Half(x: real): real {
    x / 2.0
  }

  /** epsilon^2 / 2, the factor that makes plain SGD's step size invariant to epsilon.
      Written as epsilon * (epsilon / 2) so that no square appears in proofs. */
  function LangevinScale(eps: real): real {
    eps * Half(eps)
  }

  /** Setup of the optimizer: when optimizer_type is "sgd" and epsilon > 0, lr_init and
      lr_min are both multiplied by epsilon^2 / 2 first; then optimizer_type is looked
      up in optim_bank, which fails for any name other than "adam" or "sgd". */
  function SetupOptimizer(name: string, eps: real, lrInit: real, lrMin: real): (r: Result<OptimizerSetup>)
    ensures r.Ok? <==> name == "adam" || name == "sgd"
    ensures r.Err? ==> r.error == UnknownOptimizer
    ensures r.Ok? ==> (r.value.kind == Sgd <==> name == "sgd")
    ensures r.Ok? && name == "sgd" && eps > 0.0 ==>
              && r.value.lrInit / LangevinScale(eps) == lrInit
              && r.value.lrMin / LangevinScale(eps) == lrMin
    ensures r.Ok? && !(name == "sgd" && eps > 0.0) ==> r.value.lrInit == lrInit && r.value.lrMin == lrMin
    ensures r.Ok? ==> (lrMin <= lrInit <==> r.value.lrMin <= r.value.lrInit)
  {
    var scaled := name == "sgd" && eps > 0.0;
    if scaled then
      PrescaleFacts(lrInit, lrMin, eps);
      Ok(OptimizerSetup(Sgd, Prescale(lrInit, eps), Prescale(lrMin, eps)))
    else if name == "adam" then Ok(OptimizerSetup(Adam, lrInit, lrMin))
    else if name == "sgd" then Ok(OptimizerSetup(Sgd, lrInit, lrMin))
    else Err(UnknownOptimizer)
  }

  /** A learning rate multiplied by epsilon^2 / 2. */
  function Prescale(lr: real, eps: real): real {
    lr * LangevinScale(eps)
  }

  lemma PrescaleFacts(lrInit: real, lrMin: real, eps: real)
    requires eps > 0.0
    ensures Prescale(lrInit, eps) / LangevinScale(eps) == lrInit
    ensures Prescale(lrMin, eps) / LangevinScale(eps) == lrMin
    ensures lrMin <= lrInit <==> Prescale(lrMin, eps) <= Prescale(lrInit, eps)
  {
    ScalePos(eps);
    ScaleOrder(lrInit, lrMin, LangevinScale(eps));
    ScaleInverse(lrInit, LangevinScale(eps));
    ScaleInverse(lrMin, LangevinScale(eps));
  }

  lemma ScalePos(eps: real)
    requires eps > 0.0
    ensures LangevinScale(eps) > 0.0
  {
    MulPos(eps, Half(eps));
  }

  lemma MulPos(a: real, b: real)
    requires a > 0.0 && b > 0.0
    ensures a * b > 0.0
  {
  }

  lemma ScaleOrder(a: real, b: real, s: real)
    requires s > 0.0
    ensures b <= a <==> b * s <= a * s
  {
    if b <= a {
      assert (a - b) * s >= 0.0;
    } else {
      MulPos(b - a, s);
    }
  }

  lemma ScaleInverse(a: real, s: real)
    requires s > 0.0
    ensures (a * s) / s == a
  {
  }

  /** Dividing by a positive scale keeps the sign and can be undone. */
  lemma DivScale(diff: real, s: real)
    requires s > 0.0
    ensures (diff / s) * s == diff
    ensures diff / s > 0.0 <==> diff > 0.0
    ensures diff / s == 0.0 <==> diff == 0.0
  {
    if diff > 0.0 {
      MulPos(diff, 1.0 / s);
    } else if diff < 0.0 {
      MulPos(-diff, 1.0 / s);
    }
  }

  // ---------------------------------------------------------------------------
  // Loss
  // ---------------------------------------------------------------------------

  /** d_s_t = mean f(x_q) - mean f(x_s_t), divided by epsilon^2 / 2 (that is, multiplied
      by 2 / epsilon^2) when epsilon > 0. The energies are given as their batch means. */
  function Loss(meanPositive: real, meanNegative: real, eps: real): (d: real)
    ensures eps > 0.0 ==> d * LangevinScale(eps) == meanPositive - meanNegative
    ensures eps <= 0.0 ==> d == meanPositive - meanNegative
    ensures d > 0.0 <==> meanPositive > meanNegative
    ensures d == 0.0 <==> meanPositive == meanNegative
  {
    var diff := meanPositive - meanNegative;
    if eps > 0.0 then
      ScalePos(eps);
      DivScale(diff, LangevinScale(eps));
      diff / LangevinScale(eps)
    else diff
  }

  /** The prescale and the loss scale cancel: with plain SGD, the step lr * d_s_t taken
      in the first iteration is the unscaled learning rate times the unscaled energy
      difference, whatever epsilon is. */
  lemma PrescaleCancelsLossScale(lrInit: real, lrMin: real, eps: real, meanPositive: real, meanNegative: real)
    requires eps > 0.0
    ensures var setup := SetupOptimizer("sgd", eps, lrInit, lrMin);
            setup.Ok? && setup.value.lrInit * Loss(meanPositive, meanNegative, eps)
                         == lrInit * (meanPositive - meanNegative)
  {
    var s := LangevinScale(eps);
    ScalePos(eps);
    var d := Loss(meanPositive, meanNegative, eps);
    assert d * s == meanPositive - meanNegative;
    MulShift(lrInit, s, d);
  }

  /** Swapping the positive and the negative batch negates the loss. */
  lemma LossAntisymmetric(meanPositive: real, meanNegative: real, eps: real)
    ensures Loss(meanNegative, meanPositive, eps) == -Loss(meanPositive, meanNegative, eps)
  {
    if eps > 0.0 {
      var s := LangevinScale(eps);
      assert (meanNegative - meanPositive) / s == -((meanPositive - meanNegative) / s);
    }
  }

  // ---------------------------------------------------------------------------
  // Annealing
  // ---------------------------------------------------------------------------

  /** One annealing step: lr <- max(lr_min, lr * lr_decay). */
  function Anneal(lr: real, lrMin: real, decay: real): (r: real)
    ensures r >= lrMin && r >= lr * decay
    ensures r == lrMin || r == lr * decay
  {
    if lrMin >= lr * decay then lrMin else lr * decay
  }

  /** The learning rate after n iterations, starting from lr. */
  function AnnealN(lr: real, lrMin: real, decay: real, n: nat): real {
    if n == 0 then lr else Anneal(AnnealN(lr, lrMin, decay, n - 1), lrMin, decay)
  }

  /** Annealing m + 1 times from lr is annealing m times from the once-annealed rate. */
  lemma {:induction false} AnnealNShift(lr: real, lrMin: real, decay: real, m: nat)
    ensures AnnealN(Anneal(lr, lrMin, decay), lrMin, decay, m) == AnnealN(lr, lrMin, decay, m + 1)
  {
    if m > 0 {
      AnnealNShift(lr, lrMin, decay, m - 1);
    }
  }

  function Max(a: real, b: real): real {
    if a >= b then a else b
  }

  function Pow(d: real, n: nat): real {
    if n == 0 then 1.0 else d * Pow(d, n - 1)
  }

  /** After at least one iteration the learning rate is never below lr_min. */
  lemma AnnealFloor(lr: real, lrMin: real, decay: real, n: nat)
    requires n >= 1
    ensures AnnealN(lr, lrMin, decay, n) >= lrMin
  {
  }

  /** With a decay of at most 1 and a non-negative rate no smaller than lr_min, one
      annealing step never raises the rate. */
  lemma AnnealStepNonIncreasing(lr: real, lrMin: real, decay: real)
    requires decay <= 1.0 && 0.0 <= lr && lrMin <= lr
    ensures Anneal(lr, lrMin, decay) <= lr
  {
    assert lr * (1.0 - decay) >= 0.0;
  }

  /** With 0 <= lr_min <= lr and decay <= 1 the learning rate is non-increasing
      from one iteration to the next. */
  lemma {:induction false} AnnealNonIncreasing(lr: real, lrMin: real, decay: real, n: nat)
    requires decay <= 1.0 && 0.0 <= lrMin <= lr
    ensures lrMin <= AnnealN(lr, lrMin, decay, n)
    ensures AnnealN(lr, lrMin, decay, n + 1) <= AnnealN(lr, lrMin, decay, n)
  {
    if n > 0 {
      AnnealNonIncreasing(lr, lrMin, decay, n - 1);
    }
    AnnealStepNonIncreasing(AnnealN(lr, lrMin, decay, n), lrMin, decay);
  }

  /** Closed form: with 0 <= decay <= 1 and lr_min >= 0, after n >= 1 iterations the
      rate is max(lr_min, lr * decay^n) — the floor applied once to the unclamped decay. */
  lemma {:induction false} AnnealClosedForm(lr: real, lrMin: real, decay: real, n: nat)
    requires 0.0 <= decay <= 1.0 && 0.0 <= lrMin
    requires n >= 1
    ensures AnnealN(lr, lrMin, decay, n) == Max(lrMin, Decayed(lr, decay, n))
  {
    if n == 1 {
      assert Pow(decay, 1) == decay;
    } else {
      AnnealClosedForm(lr, lrMin, decay, n - 1);
      PowStep(lr, decay, n);
      AnnealOfMax(AnnealN(lr, lrMin, decay, n - 1), lrMin, Decayed(lr, decay, n - 1), Decayed(lr, decay, n), decay);
    }
  }

  /** One annealing step applied to an already-floored rate. */
  lemma AnnealOfMax(prev: real, lrMin: real, p: real, q: real, decay: real)
    requires 0.0 <= decay <= 1.0 && 0.0 <= lrMin
    requires prev == Max(lrMin, p) && q == p * decay
    ensures Anneal(prev, lrMin, decay) == Max(lrMin, q)
  {
    assert lrMin * decay <= lrMin by {
      assert lrMin * (1.0 - decay) >= 0.0;
    }
    if lrMin < p {
      assert (p - lrMin) * decay >= 0.0;
    }
  }

  /** lr * decay^n, the rate that n unclamped annealing steps would reach. */
  function Decayed(lr: real, decay: real, n: nat): real {
    lr * Pow(decay, n)
  }

  lemma PowStep(lr: real, decay: real, n: nat)
    requires n >= 1
    ensures Decayed(lr, decay, n - 1) * decay == Decayed(lr, decay, n)
  {
    var q := Pow(decay, n - 1);
    assert Pow(decay, n) == decay * q;
    MulShift(lr, q, decay);
  }

  lemma MulShift(a: real, b: real, c: real)
    ensures a * b * c == a * (c * b)
  {
  }

  // ---------------------------------------------------------------------------
  // Iteration-counter tests
  // ---------------------------------------------------------------------------

  /** `(i + 1) % freq == 0`, which raises for freq == 0. Python's % and Dafny's % differ
      for a negative divisor, but both give 0 exactly when freq divides i + 1. */
  function Periodic(i: nat, freq: int): (r: Result<bool>)
    ensures r.Err? <==> freq == 0
    ensures r.Err? ==> r.error == ZeroModulo
    ensures r == Ok(true) <==> freq != 0 && exists q :: i + 1 == q * freq
  {
    if freq == 0 then Err(ZeroModulo)
    else
      DividesIff(i + 1, freq);
      Ok((i + 1) % freq == 0)
  }

  lemma DividesIff(a: int, f: int)
    requires f != 0
    ensures a % f == 0 <==> exists q :: a == q * f
  {
    if a % f == 0 {
      assert a == (a / f) * f;
    } else {
      if exists q :: a == q * f {
        var q :| a == q * f;
        DivModUnique(a, f, q, 0);
        assert false;
      }
    }
  }

  /** Euclidean division is unique: a = q * f + r with 0 <= r < |f| fixes q and r. */
  lemma DivModUnique(a: int, f: int, q: int, r: int)
    requires f != 0 && a == q * f + r && 0 <= r < AbsInt(f)
    ensures a / f == q && a % f == r
  {
    var q' := a / f;
    var r' := a % f;
    assert a == q' * f + r';
    assert (q - q') * f == r' - r;
    if q != q' {
      MulAbsBound(q - q', f);
      assert false;
    }
  }

  function AbsInt(a: int): nat {
    if a < 0 then -a else a
  }

  lemma MulAbsBound(a: int, f: int)
    requires a != 0 && f != 0
    ensures AbsInt(a * f) >= AbsInt(f)
  {
    AbsMul(a, f);
    MulAtLeast(AbsInt(a), AbsInt(f));
  }

  lemma MulAtLeast(a: int, f: int)
    requires a >= 1 && f >= 1
    ensures a * f >= f
  {
    MulNonNegInt(a - 1, f);
    assert a * f == (a - 1) * f + f;
  }

  lemma MulNonNegInt(a: int, b: int)
    requires a >= 0 && b >= 0
    ensures a * b >= 0
  {
  }

  lemma AbsMul(a: int, f: int)
    ensures AbsInt(a * f) == AbsInt(a) * AbsInt(f)
  {
    if a < 0 && f < 0 {
      NegNeg(a, f);
      MulNonNegInt(-a, -f);
    } else if a < 0 {
      NegLeft(a, f);
      MulNonNegInt(-a, f);
    } else if f < 0 {
      NegLeft(f, a);
      MulNonNegInt(-f, a);
      assert a * f == f * a;
    } else {
      MulNonNegInt(a, f);
    }
  }

  lemma NegLeft(a: int, f: int)
    ensures a * f == -((-a) * f)
  {
  }

  lemma NegNeg(a: int, f: int)
    ensures a * f == (-a) * (-f)
  {
  }

  /** The logging test `(i + 1) == 1 or (i + 1) % log_freq == 0`: the first iteration
      always logs, and Python's short-circuit spares it the modulo. */
  function LogDue(i: nat, freq: int): (r: Result<bool>)
    ensures i == 0 ==> r == Ok(true)
    ensures i > 0 ==> r == Periodic(i, freq)
    ensures r.Err? <==> i > 0 && freq == 0
    ensures r == Ok(true) <==> i == 0 || (freq != 0 && exists q :: i + 1 == q * freq)
  {
    if i + 1 == 1 then Ok(true) else Periodic(i, freq)
  }

  /** Diagnostics are plotted inside a logging iteration, and only once there is more
      than one point to plot. */
  function PlotDue(i: nat, freq: int): (r: Result<bool>)
    ensures r == Ok(true) ==> i >= 1 && LogDue(i, freq) == Ok(true)
    ensures i >= 1 ==> r == LogDue(i, freq)
    ensures i == 0 ==> r == Ok(false)
  {
    var log :- LogDue(i, freq);
    Ok(log && i + 1 > 1)
  }

  /** The long-run test `log_longrun and (i + 1) % log_longrun_freq == 0`: a disabled
      long run never evaluates the modulo. */
  function LongRunDue(i: nat, enabled: bool, freq: int): (r: Result<bool>)
    ensures r.Err? <==> enabled && freq == 0
    ensures r.Err? ==> r.error == ZeroModulo
    ensures r == Ok(true) <==> enabled && freq != 0 && exists q :: i + 1 == q * freq
  {
    if !enabled then Ok(false) else Periodic(i, freq)
  }

  // ---------------------------------------------------------------------------
  // How often the tests fire
  // ---------------------------------------------------------------------------

  /** How many of the iterations 0 .. n-1 pass the periodic test. */
  function PeriodicCount(n: nat, freq: int): nat
    requires freq > 0
  {
    if n == 0 then 0
    else PeriodicCount(n - 1, freq) + (if Periodic(n - 1, freq) == Ok(true) then 1 else 0)
  }

  /** How many of the iterations 0 .. n-1 log. */
  function LogCount(n: nat, freq: int): nat
    requires freq > 0
  {
    if n == 0 then 0
    else LogCount(n - 1, freq) + (if LogDue(n - 1, freq) == Ok(true) then 1 else 0)
  }

  /** Over n iterations a periodic test with period freq fires n / freq times. */
  lemma {:induction false} PeriodicCountClosedForm(n: nat, freq: int)
    requires freq > 0
    ensures PeriodicCount(n, freq) == n / freq
  {
    if n > 0 {
      PeriodicCountClosedForm(n - 1, freq);
      DivSucc(n - 1, freq);
    }
  }

  /** Over n >= 1 iterations logging fires n / log_freq times, plus once more for the
      first iteration unless log_freq is 1 (when the first iteration is already counted). */
  lemma {:induction false} LogCountClosedForm(n: nat, freq: int)
    requires freq > 0
    ensures LogCount(n, freq) == n / freq + (if n >= 1 && freq != 1 then 1 else 0)
  {
    if n > 0 {
      LogCountClosedForm(n - 1, freq);
      DivSucc(n - 1, freq);
      if n == 1 {
        assert (n - 1) / freq == 0 by {
          DivModUnique(0, freq, 0, 0);
        }
        if freq == 1 {
          DivModUnique(1, 1, 1, 0);
        } else {
          DivModUnique(1, freq, 0, 1);
        }
      }
    }
  }

  /** (a + 1) / f steps up by one exactly when f divides a + 1. */
  lemma DivSucc(a: nat, f: int)
    requires f > 0
    ensures (a + 1) / f == a / f + (if (a + 1) % f == 0 then 1 else 0)
  {
    var q := a / f;
    var r := a % f;
    assert a == q * f + r;
    if r + 1 == f {
      DivModUnique(a + 1, f, q + 1, 0);
    } else {
      DivModUnique(a + 1, f, q, r + 1);
    }
  }
}
