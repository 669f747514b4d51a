/** sample_s_t: draw initial states by policy, run L Langevin updates on them,
    report the average gradient magnitude r_s_t, and write persistent states back
    to the bank. */
module Sampler {
  import opened Errors
  import opened Tensors
  import opened ChainBank
  import opened Initialisation
  import opened Langevin

  /** The configuration sample_s_t reads: entries per state, C * H * W of the
      [C, H, W] layout (im_ch * im_sz * im_sz for images, 2 for the toy's [2, 1, 1]),
      noise_init_factor (1 for the image trainer) and the Langevin epsilon. */
  datatype SamplerConfig = SamplerConfig(dim: nat, noiseInitFactor: real, epsilon: real)

  /** The random draws of one sample_s_t call: those of the initialisation and the
      randn_like noise of every Langevin update. */
  datatype Draws = Draws(init: InitDraws, noise: Noise)

  /** What sample_s_t returns (the final states and r_s_t) and the bank it leaves behind. */
  datatype Sample = Sample(x: seq<Vec>, r: real, bank: seq<Vec>)

  /** sample_s_t(L, init_type, update_s_t_0) with the policy's batch size.
      An unknown init_type raises; so does an empty batch, whose gradient cannot be
      viewed as (0, -1). */
  function SampleST(cfg: SamplerConfig, src: PositiveSource, bank: seq<Vec>, batchSize: nat, L: nat,
                    initType: string, updateBank: bool, d: Draws, grad: Gradient, norm: Norm): (r: Result<Sample>)
    requires L > 0
    requires ValidInitDraws(|bank|, src, d.init)
    ensures ParseInit(initType).Err? ==> r == Err(InvalidInitType)
    ensures r.Err? && ParseInit(initType).Ok? ==> r.error == EmptyBatch
    ensures r.Ok? ==> |r.value.x| > 0 && |r.value.bank| == |bank| && r.value.r >= 0.0
  {
    var kind :- ParseInit(initType);
    var init := SampleInit(kind, bank, src, batchSize, cfg.dim, cfg.noiseInitFactor, d.init);
    if |init.x| == 0 then Err(EmptyBatch)
    else
      var x := Chain(init.x, L, cfg.epsilon, grad, d.noise);
      var r := AccNorm(init.x, L, cfg.epsilon, grad, d.noise, norm) / (L as real);
      ChainShape(init.x, L, cfg.epsilon, grad, d.noise);
      AccNormAverageNonNeg(init.x, L, cfg.epsilon, grad, d.noise, norm);
      if kind == Persistent && updateBank then
        var inds := init.inds.value;
        ShapedChain(init.x, L, cfg.epsilon, grad, d.noise, cfg.dim);
        ShapedWriteBack(bank, inds, x, cfg.dim);
        Ok(Sample(x, r, WriteBack(bank, inds, x)))
      else
        ShapedChain(init.x, L, cfg.epsilon, grad, d.noise, cfg.dim);
        Ok(Sample(x, r, bank))
  }

  /** A chain started from rows of one width keeps that width. */
  lemma ShapedChain(x0: seq<Vec>, k: nat, eps: real, grad: Gradient, noise: Noise, dim: nat)
    ensures Shaped(x0, dim) ==> Shaped(Chain(x0, k, eps, grad, noise), dim)
  {
    ChainShape(x0, k, eps, grad, noise);
  }

  lemma ShapedWriteBack(bank: seq<Vec>, inds: seq<nat>, xs: seq<Vec>, dim: nat)
    requires |inds| == |xs|
    requires Distinct(inds) && InRange(inds, |bank|)
    ensures Shaped(bank, dim) && Shaped(xs, dim) ==> Shaped(WriteBack(bank, inds, xs), dim)
  {
    if Shaped(bank, dim) && Shaped(xs, dim) {
      WriteBackShaped(bank, inds, xs, dim);
    }
  }

  /** When sample_s_t succeeds: for a known policy, exactly when its initial batch is
      non-empty — for "persistent" the bank must hold a slot and batch_size be positive. */
  lemma SampleSTSucceeds(cfg: SamplerConfig, src: PositiveSource, bank: seq<Vec>, batchSize: nat, L: nat,
                         initType: string, updateBank: bool, d: Draws, grad: Gradient, norm: Norm)
    requires L > 0
    requires ValidInitDraws(|bank|, src, d.init)
    ensures var r := SampleST(cfg, src, bank, batchSize, L, initType, updateBank, d, grad, norm);
            && (initType == "persistent" ==> (r.Ok? <==> Min(batchSize, |bank|) > 0))
            && (initType in {"uniform", "gaussian"} ==> (r.Ok? <==> batchSize > 0))
            && (initType == "data" && src.DatasetSource? ==> (r.Ok? <==> Min(batchSize, |src.q|) > 0))
  {
  }

  /** A persistent call runs the L-step Langevin chain from the bank rows at the first
      min(batch_size, |bank|) permuted slots and reports the per-step mean gradient
      norms along it averaged over L; rows of the bank's width stay that wide. */
  lemma PersistentFinalStates(cfg: SamplerConfig, src: PositiveSource, bank: seq<Vec>, batchSize: nat, L: nat,
                              updateBank: bool, d: Draws, grad: Gradient, norm: Norm)
    requires L > 0
    requires ValidInitDraws(|bank|, src, d.init)
    ensures var r := SampleST(cfg, src, bank, batchSize, L, "persistent", updateBank, d, grad, norm);
            var rows := SampleImageSet(bank, d.init.perm, batchSize).rows;
            && (r.Ok? ==> r.value.r == AccNorm(rows, L, cfg.epsilon, grad, d.noise, norm) / (L as real))
            && (r.Ok? ==> r.value.x == Chain(rows, L, cfg.epsilon, grad, d.noise))
            && (r.Ok? && Shaped(bank, cfg.dim) ==> Shaped(r.value.x, cfg.dim))
  {
    var rows := SampleImageSet(bank, d.init.perm, batchSize).rows;
    ShapedChain(rows, L, cfg.epsilon, grad, d.noise, cfg.dim);
  }

  /** A "data" call runs the L-step Langevin chain from a sample_q batch and reports
      the per-step mean gradient norms along it averaged over L. */
  lemma DataFinalStates(cfg: SamplerConfig, src: PositiveSource, bank: seq<Vec>, batchSize: nat, L: nat,
                        updateBank: bool, d: Draws, grad: Gradient, norm: Norm)
    requires L > 0
    requires ValidInitDraws(|bank|, src, d.init)
    ensures var r := SampleST(cfg, src, bank, batchSize, L, "data", updateBank, d, grad, norm);
            var x0 := SampleQ(src, batchSize, d.init.positive);
            r.Ok? ==>
              && r.value.r == AccNorm(x0, L, cfg.epsilon, grad, d.noise, norm) / (L as real)
              && r.value.x == Chain(x0, L, cfg.epsilon, grad, d.noise)
  {
  }

  /** A call started from fresh noise runs the L-step Langevin chain from the scaled
      uniform or Gaussian draw and reports the per-step mean gradient norms along it
      averaged over L. */
  lemma NoiseReport(cfg: SamplerConfig, src: PositiveSource, bank: seq<Vec>, batchSize: nat, L: nat,
                    initType: string, updateBank: bool, d: Draws, grad: Gradient, norm: Norm)
    requires L > 0
    requires ValidInitDraws(|bank|, src, d.init)
    requires initType == "uniform" || initType == "gaussian"
    ensures var r := SampleST(cfg, src, bank, batchSize, L, initType, updateBank, d, grad, norm);
            var kind := if initType == "uniform" then Uniform else Gaussian;
            var x0 := SampleInit(kind, bank, src, batchSize, cfg.dim, cfg.noiseInitFactor, d.init).x;
            r.Ok? ==>
              && r.value.r == AccNorm(x0, L, cfg.epsilon, grad, d.noise, norm) / (L as real)
              && r.value.x == Chain(x0, L, cfg.epsilon, grad, d.noise)
  {
    var kind := if initType == "uniform" then Uniform else Gaussian;
    assert ParseInit(initType) == Ok(kind);
  }

  /** A call started from fresh noise returns batch_size states of the configured width. */
  lemma NoiseFinalStates(cfg: SamplerConfig, src: PositiveSource, bank: seq<Vec>, batchSize: nat, L: nat,
                         initType: string, updateBank: bool, d: Draws, grad: Gradient, norm: Norm)
    requires L > 0
    requires ValidInitDraws(|bank|, src, d.init)
    requires initType == "uniform" || initType == "gaussian"
    ensures var r := SampleST(cfg, src, bank, batchSize, L, initType, updateBank, d, grad, norm);
            r.Ok? ==> |r.value.x| == batchSize && Shaped(r.value.x, cfg.dim)
  {
    var r := SampleST(cfg, src, bank, batchSize, L, initType, updateBank, d, grad, norm);
    var kind := if initType == "uniform" then Uniform else Gaussian;
    assert ParseInit(initType) == Ok(kind);
    var x0 := SampleInit(kind, bank, src, batchSize, cfg.dim, cfg.noiseInitFactor, d.init).x;
    assert |x0| == batchSize && Shaped(x0, cfg.dim);
    if r.Ok? {
      assert r.value.x == Chain(x0, L, cfg.epsilon, grad, d.noise);
      ChainShape(x0, L, cfg.epsilon, grad, d.noise);
      ShapedChain(x0, L, cfg.epsilon, grad, d.noise, cfg.dim);
    }
  }

  /** The bank after sample_s_t: an updating persistent call overwrites exactly the
      selected slots with the final states; every other call returns it unchanged.
      Either way every row keeps the configured width. */
  lemma SampleSTBank(cfg: SamplerConfig, src: PositiveSource, bank: seq<Vec>, batchSize: nat, L: nat,
                     initType: string, updateBank: bool, d: Draws, grad: Gradient, norm: Norm)
    requires L > 0
    requires ValidInitDraws(|bank|, src, d.init)
    ensures var r := SampleST(cfg, src, bank, batchSize, L, initType, updateBank, d, grad, norm);
            && (r.Ok? && Shaped(bank, cfg.dim) ==> Shaped(r.value.bank, cfg.dim))
            && (r.Ok? && initType == "persistent" && updateBank ==>
                  |r.value.x| <= |d.init.perm| &&
                  var inds := d.init.perm[..|r.value.x|];
                  && (forall k :: 0 <= k < |inds| ==> r.value.bank[inds[k]] == r.value.x[k])
                  && (forall j :: 0 <= j < |bank| && j !in inds ==> r.value.bank[j] == bank[j]))
            && (r.Ok? && !(initType == "persistent" && updateBank) ==> r.value.bank == bank)
  {
    var r := SampleST(cfg, src, bank, batchSize, L, initType, updateBank, d, grad, norm);
    if r.Ok? {
      var kind := ParseInit(initType).value;
      var init := SampleInit(kind, bank, src, batchSize, cfg.dim, cfg.noiseInitFactor, d.init);
      ChainShape(init.x, L, cfg.epsilon, grad, d.noise);
    }
  }

  /** Persistent chains resume where they stopped: after an updating persistent call,
      selecting the same bank slots again yields exactly that call's final states. */
  lemma PersistentResume(cfg: SamplerConfig, src: PositiveSource, bank: seq<Vec>, batchSize: nat, L: nat,
                         d: Draws, grad: Gradient, norm: Norm)
    requires L > 0
    requires ValidInitDraws(|bank|, src, d.init)
    requires SampleST(cfg, src, bank, batchSize, L, "persistent", true, d, grad, norm).Ok?
    ensures var s := SampleST(cfg, src, bank, batchSize, L, "persistent", true, d, grad, norm).value;
            SampleImageSet(s.bank, d.init.perm, batchSize).rows == s.x
  {
    var s := SampleST(cfg, src, bank, batchSize, L, "persistent", true, d, grad, norm).value;
    var sel := SampleImageSet(bank, d.init.perm, batchSize);
    ChainShape(sel.rows, L, cfg.epsilon, grad, d.noise);
    WriteThenRead(bank, d.init.perm, batchSize, s.x);
  }
}
