/** sample_q and sample_s_t_0: where a batch of positive samples and the starting
    states of a Langevin run come from. */
module Initialisation {
  import opened Errors
  import opened Tensors
  import opened ChainBank

  /** The four recognised values of init_type. */
  datatype InitKind = Persistent | Data | Uniform | Gaussian

  /** The string comparison chain of sample_s_t_0; any other value raises. */
  function ParseInit(name: string): (r: Result<InitKind>)
    ensures r.Ok? <==> name in {"persistent", "data", "uniform", "gaussian"}
    ensures r.Err? ==> r.error == InvalidInitType
    ensures r == Ok(Persistent) <==> name == "persistent"
    ensures r == Ok(Data) <==> name == "data"
    ensures r == Ok(Uniform) <==> name == "uniform"
    ensures r == Ok(Gaussian) <==> name == "gaussian"
  {
    if name == "persistent" then Ok(Persistent)
    else if name == "data" then Ok(Data)
    else if name == "uniform" then Ok(Uniform)
    else if name == "gaussian" then Ok(Gaussian)
    else Err(InvalidInitType)
  }

  /** The name each policy is configured by. */
  function InitName(k: InitKind): string {
    match k
    case Persistent => "persistent"
    case Data => "data"
    case Uniform => "uniform"
    case Gaussian => "gaussian"
  }

  lemma ParseInitName(k: InitKind)
    ensures ParseInit(InitName(k)) == Ok(k)
  {
  }

  /** Where positive samples come from: the in-memory image dataset q with the
      configured data_epsilon noise, or the toy distribution's exact generator. */
  datatype PositiveSource = DatasetSource(q: seq<Vec>, dataEpsilon: real) | ToySource

  /** The random draws one sample_q call consumes: randperm(|q|) and randn_like
      for the image dataset, or the batch q.sample_toy_data returns for the toy case. */
  datatype PositiveDraws = PositiveDraws(perm: seq<nat>, gaussian: (nat, nat) -> real, toyBatch: seq<Vec>)

  ghost predicate ValidPositiveDraws(src: PositiveSource, d: PositiveDraws) {
    src.DatasetSource? ==> IsPermutation(d.perm, |src.q|)
  }

  /** sample_q: a batch of dataset rows with `data_epsilon * randn` added to every
      entry (image), or the toy generator's batch unchanged. */
  function SampleQ(src: PositiveSource, batchSize: nat, d: PositiveDraws): (xq: seq<Vec>)
    requires ValidPositiveDraws(src, d)
    ensures src.ToySource? ==> xq == d.toyBatch
    ensures src.DatasetSource? ==>
              var sel := SampleImageSet(src.q, d.perm, batchSize);
              && |xq| == Min(batchSize, |src.q|)
              && forall k :: 0 <= k < |xq| ==>
                   && |xq[k]| == |sel.rows[k]|
                   && forall j :: 0 <= j < |xq[k]| ==>
                        xq[k][j] - sel.rows[k][j] == src.dataEpsilon * d.gaussian(k, j)
  {
    match src
    case ToySource => d.toyBatch
    case DatasetSource(q, eps) =>
      var rows := SampleImageSet(q, d.perm, batchSize).rows;
      seq(|rows|, k requires 0 <= k < |rows| =>
        seq(|rows[k]|, j requires 0 <= j < |rows[k]| => rows[k][j] + eps * d.gaussian(k, j)))
  }

  /** With data_epsilon = 0 the image positives are exactly the selected dataset rows. */
  lemma SampleQNoiseless(q: seq<Vec>, batchSize: nat, d: PositiveDraws)
    requires IsPermutation(d.perm, |q|)
    ensures SampleQ(DatasetSource(q, 0.0), batchSize, d) == SampleImageSet(q, d.perm, batchSize).rows
  {
    var xq := SampleQ(DatasetSource(q, 0.0), batchSize, d);
    var rows := SampleImageSet(q, d.perm, batchSize).rows;
    forall k | 0 <= k < |xq| ensures xq[k] == rows[k] {
      assert |xq[k]| == |rows[k]|;
      forall j | 0 <= j < |xq[k]| ensures xq[k][j] == rows[k][j] {
        assert xq[k][j] - rows[k][j] == 0.0 * d.gaussian(k, j);
      }
    }
  }

  /** The random draws one sample_s_t_0 call may consume. */
  datatype InitDraws = InitDraws(
    perm: seq<nat>,                // randperm over the bank, for "persistent"
    positive: PositiveDraws,       // the sample_q call, for "data"
    uniform: (nat, nat) -> Unit,   // torch.rand, for "uniform"
    gaussian: (nat, nat) -> real)  // torch.randn, for "gaussian"

  ghost predicate ValidInitDraws(bankSize: nat, src: PositiveSource, d: InitDraws) {
    IsPermutation(d.perm, bankSize) && ValidPositiveDraws(src, d.positive)
  }

  /** Starting states and, for the persistent policy only, the bank indices they came from. */
  datatype InitDraw = InitDraw(x: seq<Vec>, inds: Option<seq<nat>>)

  /** The body of sample_s_t_0 for a recognised policy. `factor` is the toy
      trainer's noise_init_factor; the image trainer corresponds to factor 1. */
  function SampleInit(kind: InitKind, bank: seq<Vec>, src: PositiveSource, batchSize: nat,
                      dim: nat, factor: real, d: InitDraws): (r: InitDraw)
    requires ValidInitDraws(|bank|, src, d)
    ensures r.inds.Some? <==> kind == Persistent
    ensures kind == Persistent ==>
              && r.inds.value == d.perm[..Min(batchSize, |bank|)]
              && Distinct(r.inds.value) && InRange(r.inds.value, |bank|)
              && |r.x| == |r.inds.value|
              && forall k :: 0 <= k < |r.x| ==> r.x[k] == bank[r.inds.value[k]]
    ensures kind == Data ==> r.x == SampleQ(src, batchSize, d.positive)
    ensures kind in {Uniform, Gaussian} ==> |r.x| == batchSize && Shaped(r.x, dim)
    ensures kind == Uniform ==>
              forall i, j :: 0 <= i < batchSize && 0 <= j < dim ==>
                && r.x[i][j] == factor * (2.0 * d.uniform(i, j) - 1.0)
                && -Abs(factor) <= r.x[i][j] <= Abs(factor)
    ensures kind == Gaussian ==>
              forall i, j :: 0 <= i < batchSize && 0 <= j < dim ==>
                r.x[i][j] == factor * d.gaussian(i, j)
  {
    match kind
    case Persistent =>
      var sel := SampleImageSet(bank, d.perm, batchSize);
      InitDraw(sel.rows, Some(sel.inds))
    case Data =>
      InitDraw(SampleQ(src, batchSize, d.positive), None)
    case Uniform =>
      var x := seq(batchSize, i requires 0 <= i => seq(dim, j requires 0 <= j =>
                 factor * (2.0 * d.uniform(i, j) - 1.0)));
      UniformBound(x, batchSize, dim, factor, d.uniform);
      InitDraw(x, None)
    case Gaussian =>
      InitDraw(seq(batchSize, i requires 0 <= i => seq(dim, j requires 0 <= j =>
                 factor * d.gaussian(i, j))), None)
  }

  lemma UniformBound(x: seq<Vec>, batchSize: nat, dim: nat, factor: real, u: (nat, nat) -> Unit)
    requires |x| == batchSize && Shaped(x, dim)
    requires forall i, j :: 0 <= i < batchSize && 0 <= j < dim ==>
               x[i][j] == factor * (2.0 * u(i, j) - 1.0)
    ensures forall i, j :: 0 <= i < batchSize && 0 <= j < dim ==>
              -Abs(factor) <= x[i][j] <= Abs(factor)
  {
    forall i, j | 0 <= i < batchSize && 0 <= j < dim
      ensures -Abs(factor) <= x[i][j] <= Abs(factor)
    {
      ScaledUnitBound(factor, 2.0 * u(i, j) - 1.0);
    }
  }

  lemma ScaledUnitBound(factor: real, v: real)
    requires -1.0 <= v <= 1.0
    ensures -Abs(factor) <= factor * v <= Abs(factor)
  {
    var g := Abs(factor);
    MulNonNeg(g, 1.0 - v);
    MulNonNeg(g, v + 1.0);
    assert g * (1.0 - v) == g - g * v;
    assert g * (v + 1.0) == g * v + g;
    assert factor * v == g * v || factor * v == -(g * v);
  }
}
