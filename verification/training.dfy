/** The training loop shared by the image and the toy trainer: per iteration a
    positive batch, a short-run negative batch (which may advance the persistent
    bank), the scaled loss, the diagnostic records, learning-rate annealing, the
    logging test and the trainer's side sampling (long-run chains for images,
    KDE visualisation for the toy). */
module Training {
  import opened Errors
  import opened Tensors
  import opened ChainBank
  import opened Initialisation
  import opened Langevin
  import opened Sampler
  import opened Schedule

  /** The sampling each trainer does besides the short-run chains: the image
      trainer's optional long-run chains (log_longrun, log_longrun_freq,
      num_longrun_steps, longrun_init) or the toy trainer's KDE visualisation
      (log_viz_freq, batch_size_kde), which reuses the short-run step count and policy. */
  datatype SideSampling =
    | LongRun(enabled: bool, freq: int, steps: nat, initType: string)
    | Kde(freq: int, batchSize: nat)

  /** The configuration keys the loop reads. `steps` and `initType` are
      num_shortrun_steps and shortrun_init (image) or num_mcmc_steps and init_type (toy);
      `bankSize` is s_t_0_size and only used by the toy trainer. */
  datatype Config = Config(
    sampler: SamplerConfig,
    netType: string,
    optimizer: string,
    lrInit: real,
    lrMin: real,
    lrDecay: real,
    batchSize: nat,
    numTrainIters: nat,
    steps: nat,
    initType: string,
    logFreq: int,
    bankSize: nat,
    side: SideSampling)

  /** The keys of net_bank: the image trainer's two architectures, or the toy network. */
  function NetNames(side: SideSampling): set<string> {
    if side.LongRun? then {"vanilla", "nonlocal"} else {"toy"}
  }

  /** The energy network after each number of optimizer steps: its batch-mean energy
      and the entrywise gradient of its summed energy. Version i is the network the
      i-th iteration samples and computes its loss with. */
  datatype Networks = Networks(meanEnergy: (nat, seq<Vec>) -> real, grad: nat -> Gradient, norm: Norm)

  /** The random draws of one iteration: sample_q, the short-run call and a side call. */
  datatype IterDraws = IterDraws(positive: PositiveDraws, shortRun: Draws, side: Draws)

  ghost predicate ValidIterDraws(bankSize: nat, src: PositiveSource, d: IterDraws) {
    && ValidPositiveDraws(src, d.positive)
    && ValidInitDraws(bankSize, src, d.shortRun.init)
    && ValidInitDraws(bankSize, src, d.side.init)
  }

  /** What persists from one iteration to the next. */
  datatype TrainState = TrainState(bank: seq<Vec>, lr: real, dRecord: seq<real>, rRecord: seq<real>)

  /** One slot per dataset image for the image trainer, s_t_0_size slots for the toy. */
  function BankSize(cfg: Config, src: PositiveSource): nat {
    match src
    case DatasetSource(q, _) => |q|
    case ToySource => cfg.bankSize
  }

  /** Whether iteration i does its side sampling. Unlike the logging test neither side
      test spares the first iteration its modulo: a zero frequency fails at once, unless
      the long run is disabled. */
  function SideDue(side: SideSampling, i: nat): (r: Result<bool>)
    ensures var on := side.Kde? || side.enabled;
            && (r.Err? <==> on && side.freq == 0)
            && (r.Err? ==> r.error == ZeroModulo)
            && (r == Ok(true) <==> on && side.freq != 0 && exists q :: i + 1 == q * side.freq)
  {
    match side
    case LongRun(enabled, freq, _, _) => LongRunDue(i, enabled, freq)
    case Kde(freq, _) => Periodic(i, freq)
  }

  function SideSteps(cfg: Config): nat {
    if cfg.side.LongRun? then cfg.side.steps else cfg.steps
  }

  function SideInit(cfg: Config): string {
    if cfg.side.LongRun? then cfg.side.initType else cfg.initType
  }

  function SideBatch(cfg: Config): nat {
    if cfg.side.LongRun? then cfg.batchSize else cfg.side.batchSize
  }

  /** Every chain the configuration can start takes at least one step. */
  predicate StepsPositive(cfg: Config) {
    cfg.steps > 0 && (cfg.side.LongRun? && cfg.side.enabled ==> cfg.side.steps > 0)
  }

  /** The short-run call of iteration i. */
  function ShortRun(cfg: Config, src: PositiveSource, nets: Networks, bank: seq<Vec>, i: nat, d: IterDraws): Result<Sample>
    requires StepsPositive(cfg) && ValidIterDraws(|bank|, src, d)
  {
    SampleST(cfg.sampler, src, bank, cfg.batchSize, cfg.steps, cfg.initType, true, d.shortRun, nets.grad(i), nets.norm)
  }

  /** d_s_t of iteration i, from the positive batch and the short-run states. */
  function IterLoss(cfg: Config, src: PositiveSource, nets: Networks, i: nat, d: IterDraws, xs: seq<Vec>): real
    requires ValidPositiveDraws(src, d.positive)
  {
    Loss(nets.meanEnergy(i, SampleQ(src, cfg.batchSize, d.positive)), nets.meanEnergy(i, xs), cfg.sampler.epsilon)
  }

  /** The state after iteration i: the short-run call's bank, the annealed learning rate,
      and d_s_t and r_s_t written to slot i of the records. */
  function Advance(cfg: Config, s: TrainState, i: nat, short: Sample, dst: real): (t: TrainState)
    requires i < |s.dRecord| && |s.rRecord| == |s.dRecord|
    ensures t.bank == short.bank
    ensures t.lr == Anneal(s.lr, cfg.lrMin, cfg.lrDecay) && t.lr >= cfg.lrMin
    ensures |t.dRecord| == |s.dRecord| && |t.rRecord| == |s.rRecord|
    ensures t.dRecord[i] == dst && t.rRecord[i] == short.r
    ensures forall k :: 0 <= k < |s.dRecord| && k != i ==>
              t.dRecord[k] == s.dRecord[k] && t.rRecord[k] == s.rRecord[k]
  {
    TrainState(short.bank, Anneal(s.lr, cfg.lrMin, cfg.lrDecay), s.dRecord[i := dst], s.rRecord[i := short.r])
  }

  /** The side sampling call of iteration i: long-run chains that leave the bank alone
      (image) or the KDE batch (toy), with the updated network (version i + 1). */
  function SideCall(cfg: Config, src: PositiveSource, nets: Networks, bank: seq<Vec>, i: nat, d: IterDraws): Result<Sample>
    requires StepsPositive(cfg) && ValidInitDraws(|bank|, src, d.side.init)
    requires SideDue(cfg.side, i) == Ok(true)
  {
    SampleST(cfg.sampler, src, bank, SideBatch(cfg), SideSteps(cfg), SideInit(cfg), false,
             d.side, nets.grad(i + 1), nets.norm)
  }

  /** The logging test and, when due, the side sampling with the updated network
      (version i + 1) on the bank the short-run call left; its states are only plotted,
      so only whether it succeeds matters. */
  function Diagnostics(cfg: Config, src: PositiveSource, nets: Networks, bank: seq<Vec>, i: nat, d: IterDraws): (r: Result<bool>)
    requires StepsPositive(cfg) && ValidInitDraws(|bank|, src, d.side.init)
    ensures LogDue(i, cfg.logFreq).Err? ==> r == Err(ZeroModulo)
    ensures LogDue(i, cfg.logFreq).Ok? && SideDue(cfg.side, i) == Ok(false) ==> r == Ok(false)
    ensures LogDue(i, cfg.logFreq).Ok? && SideDue(cfg.side, i).Err? ==> r == Err(ZeroModulo)
    ensures LogDue(i, cfg.logFreq).Ok? && SideDue(cfg.side, i) == Ok(true) ==>
              var side := SideCall(cfg, src, nets, bank, i, d);
              (side.Err? ==> r == Err(side.error)) && (side.Ok? ==> r == Ok(true))
    ensures r.Ok? ==> LogDue(i, cfg.logFreq).Ok? && (r.value <==> SideDue(cfg.side, i) == Ok(true))
  {
    var _ :- LogDue(i, cfg.logFreq);
    var due :- SideDue(cfg.side, i);
    if due then
      var _ :- SideCall(cfg, src, nets, bank, i, d);
      Ok(true)
    else
      Ok(false)
  }

  /** One pass of the training loop at iteration i (0-based): it succeeds exactly when the
      short-run call and the diagnostics do, and then advances the state by the short-run
      result and its loss. */
  function Iteration(cfg: Config, src: PositiveSource, nets: Networks, s: TrainState, i: nat, d: IterDraws): (r: Result<TrainState>)
    requires i < |s.dRecord| && |s.rRecord| == |s.dRecord|
    requires StepsPositive(cfg)
    requires ValidIterDraws(|s.bank|, src, d)
    ensures r.Ok? ==> r.value.lr == Anneal(s.lr, cfg.lrMin, cfg.lrDecay)
    ensures r.Ok? ==> |r.value.bank| == |s.bank|
    ensures r.Ok? ==> |r.value.dRecord| == |s.dRecord| && |r.value.rRecord| == |s.rRecord|
  {
    var short :- ShortRun(cfg, src, nets, s.bank, i, d);
    var _ :- Diagnostics(cfg, src, nets, short.bank, i, d);
    Ok(Advance(cfg, s, i, short, IterLoss(cfg, src, nets, i, d, short.x)))
  }

  /** Iteration i writes d_s_t and r_s_t to slot i of the records and nowhere else;
      d_s_t is the scaled loss of the positive and short-run batches, positive exactly when the positive batch has the higher mean energy,
      and r_s_t is the short-run call's non-negative average gradient magnitude. */
  lemma IterationRecords(cfg: Config, src: PositiveSource, nets: Networks, s: TrainState, i: nat, d: IterDraws)
    requires i < |s.dRecord| && |s.rRecord| == |s.dRecord|
    requires StepsPositive(cfg)
    requires ValidIterDraws(|s.bank|, src, d)
    ensures var r := Iteration(cfg, src, nets, s, i, d);
            r.Ok? ==>
              && ShortRun(cfg, src, nets, s.bank, i, d).Ok?
              && (forall k :: 0 <= k < |s.dRecord| && k != i ==>
                    r.value.dRecord[k] == s.dRecord[k] && r.value.rRecord[k] == s.rRecord[k])
              && r.value.rRecord[i] == ShortRun(cfg, src, nets, s.bank, i, d).value.r
              && r.value.rRecord[i] >= 0.0
              && r.value.dRecord[i]
                 == IterLoss(cfg, src, nets, i, d, ShortRun(cfg, src, nets, s.bank, i, d).value.x)
              && (r.value.dRecord[i] > 0.0 <==>
                    nets.meanEnergy(i, SampleQ(src, cfg.batchSize, d.positive))
                    > nets.meanEnergy(i, ShortRun(cfg, src, nets, s.bank, i, d).value.x))
  {
    var r := Iteration(cfg, src, nets, s, i, d);
    if r.Ok? {
      var short := ShortRun(cfg, src, nets, s.bank, i, d).value;
      var dst := IterLoss(cfg, src, nets, i, d, short.x);
      assert r.value == Advance(cfg, s, i, short, dst);
      assert r.value.dRecord == s.dRecord[i := dst];
      assert r.value.rRecord == s.rRecord[i := short.r];
    }
  }

  /** Only the short-run call touches the bank: after a successful iteration the bank is
      the one the short-run call left, whatever the side sampling did. So the bank keeps
      its row width, and it never changes when the short-run policy is not persistent. */
  lemma IterationBank(cfg: Config, src: PositiveSource, nets: Networks, s: TrainState, i: nat, d: IterDraws)
    requires i < |s.dRecord| && |s.rRecord| == |s.dRecord|
    requires StepsPositive(cfg)
    requires ValidIterDraws(|s.bank|, src, d)
    ensures var r := Iteration(cfg, src, nets, s, i, d);
            && (r.Ok? ==> ShortRun(cfg, src, nets, s.bank, i, d).Ok?
                          && r.value.bank == ShortRun(cfg, src, nets, s.bank, i, d).value.bank)
            && (r.Ok? && Shaped(s.bank, cfg.sampler.dim) ==> Shaped(r.value.bank, cfg.sampler.dim))
            && (r.Ok? && cfg.initType != "persistent" ==> r.value.bank == s.bank)
  {
    var r := Iteration(cfg, src, nets, s, i, d);
    if r.Ok? {
      var short := ShortRun(cfg, src, nets, s.bank, i, d).value;
      assert r.value.bank == short.bank;
      SampleSTBank(cfg.sampler, src, s.bank, cfg.batchSize, cfg.steps, cfg.initType, true,
                   d.shortRun, nets.grad(i), nets.norm);
    }
  }

  /** The side sampling (long-run chains or the KDE batch) runs with update_s_t_0 off,
      so it hands back the bank exactly as it received it, whatever its policy. */
  lemma SideRunKeepsBank(cfg: Config, src: PositiveSource, nets: Networks, bank: seq<Vec>, i: nat, d: IterDraws)
    requires StepsPositive(cfg) && ValidInitDraws(|bank|, src, d.side.init)
    requires SideDue(cfg.side, i) == Ok(true)
    ensures var r := SampleST(cfg.sampler, src, bank, SideBatch(cfg), SideSteps(cfg), SideInit(cfg), false,
                              d.side, nets.grad(i + 1), nets.norm);
            r.Ok? ==> r.value.bank == bank
  {
    SampleSTBank(cfg.sampler, src, bank, SideBatch(cfg), SideSteps(cfg), SideInit(cfg), false,
                 d.side, nets.grad(i + 1), nets.norm);
  }

  /** An iteration fails on an unknown short-run policy, and on a zero log_freq from the
      second iteration on (the first one logs without evaluating the modulo). */
  lemma IterationErrors(cfg: Config, src: PositiveSource, nets: Networks, s: TrainState, i: nat, d: IterDraws)
    requires i < |s.dRecord| && |s.rRecord| == |s.dRecord|
    requires StepsPositive(cfg)
    requires ValidIterDraws(|s.bank|, src, d)
    ensures var r := Iteration(cfg, src, nets, s, i, d);
            && (ParseInit(cfg.initType).Err? ==> r == Err(InvalidInitType))
            && (ShortRun(cfg, src, nets, s.bank, i, d).Ok? && i > 0 && cfg.logFreq == 0 ==> r == Err(ZeroModulo))
            && (r.Ok? ==> i == 0 || cfg.logFreq != 0)
            && ((ShortRun(cfg, src, nets, s.bank, i, d).Ok? && LogDue(i, cfg.logFreq).Ok?
                 && SideDue(cfg.side, i).Err?) ==> r == Err(ZeroModulo))
            && ((ShortRun(cfg, src, nets, s.bank, i, d).Ok? && LogDue(i, cfg.logFreq).Ok?
                 && SideDue(cfg.side, i) == Ok(true)) ==>
                  var short := ShortRun(cfg, src, nets, s.bank, i, d).value;
                  var side := SideCall(cfg, src, nets, short.bank, i, d);
                  side.Err? ==> r == Err(side.error))
  {
    var short := ShortRun(cfg, src, nets, s.bank, i, d);
    if short.Ok? {
      assert LogDue(i, cfg.logFreq).Err? ==> Diagnostics(cfg, src, nets, short.value.bank, i, d).Err?;
    }
  }

  /** An unknown longrun_init raises only when the long run is due: on an iteration whose
      logging test passes, the diagnostics fail with InvalidInitType exactly when the
      long-run test fires. */
  lemma LongRunInitErrors(cfg: Config, src: PositiveSource, nets: Networks, bank: seq<Vec>, i: nat, d: IterDraws)
    requires StepsPositive(cfg) && ValidInitDraws(|bank|, src, d.side.init)
    requires cfg.side.LongRun? && ParseInit(cfg.side.initType).Err?
    requires LogDue(i, cfg.logFreq).Ok?
    ensures Diagnostics(cfg, src, nets, bank, i, d) == Err(InvalidInitType) <==> SideDue(cfg.side, i) == Ok(true)
  {
    if SideDue(cfg.side, i) == Ok(true) {
      assert SideCall(cfg, src, nets, bank, i, d) == Err(InvalidInitType);
    }
  }

  // ---------------------------------------------------------------------------
  // The whole loop
  // ---------------------------------------------------------------------------

  /** A loop body: what iteration k does to the state; it may fail. */
  type Body = (TrainState, nat) --> Result<TrainState>

  /** The bank holds `bankSize` slots and each record one slot per iteration. */
  predicate Fits(s: TrainState, bankSize: nat, n: nat) {
    |s.bank| == bankSize && |s.dRecord| == n && |s.rRecord| == n
  }

  /** The body runs on every fitting state at every iteration k < n and leaves a
      fitting state behind. */
  ghost predicate KeepsFit(body: Body, bankSize: nat, n: nat) {
    forall t: TrainState, k: nat :: Fits(t, bankSize, n) && k < n ==>
      body.requires(t, k) && (body(t, k).Ok? ==> Fits(body(t, k).value, bankSize, n))
  }

  /** Iterations i .. n - 1 in order, each on the state the previous one left,
      stopping at the first failure. */
  function Loop(body: Body, bankSize: nat, n: nat, s: TrainState, i: nat): (r: Result<TrainState>)
    requires KeepsFit(body, bankSize, n) && Fits(s, bankSize, n) && i <= n
    ensures r.Ok? ==> Fits(r.value, bankSize, n)
    ensures i == n ==> r == Ok(s)
    decreases n - i
  {
    if i == n then Ok(s)
    else
      var next :- body(s, i);
      Loop(body, bankSize, n, next, i + 1)
  }

  /** `after` differs from `before` in the records only at slot k, where r_s_t is
      non-negative. */
  predicate RecordsAt(before: TrainState, after: TrainState, k: nat) {
    && |after.dRecord| == |before.dRecord| && |after.rRecord| == |before.rRecord|
    && k < |after.rRecord|
    && after.rRecord[k] >= 0.0
    && (forall j :: 0 <= j < |before.dRecord| && j != k ==> after.dRecord[j] == before.dRecord[j])
    && (forall j :: 0 <= j < |before.rRecord| && j != k ==> after.rRecord[j] == before.rRecord[j])
  }

  /** Iteration k writes the records at slot k only. */
  ghost predicate WritesOwnSlot(body: Body, bankSize: nat, n: nat) {
    forall t: TrainState, k: nat :: Fits(t, bankSize, n) && k < n && body.requires(t, k) && body(t, k).Ok? ==>
      RecordsAt(t, body(t, k).value, k)
  }

  /** Iteration k anneals the learning rate exactly once. */
  ghost predicate AnnealsOnce(body: Body, bankSize: nat, n: nat, lrMin: real, decay: real) {
    forall t: TrainState, k: nat :: Fits(t, bankSize, n) && k < n && body.requires(t, k) && body(t, k).Ok? ==>
      body(t, k).value.lr == Anneal(t.lr, lrMin, decay)
  }

  /** A bank whose rows are `dim` wide stays so. */
  ghost predicate KeepsBankShaped(body: Body, bankSize: nat, n: nat, dim: nat) {
    forall t: TrainState, k: nat :: Fits(t, bankSize, n) && k < n && body.requires(t, k) && body(t, k).Ok? && Shaped(t.bank, dim) ==>
      Shaped(body(t, k).value.bank, dim)
  }

  /** The bank is left exactly as it was. */
  ghost predicate KeepsBank(body: Body, bankSize: nat, n: nat) {
    forall t: TrainState, k: nat :: Fits(t, bankSize, n) && k < n && body.requires(t, k) && body(t, k).Ok? ==>
      body(t, k).value.bank == t.bank
  }

  /** A successful run from iteration i: the slots before i are as they were, and each
      later slot holds the non-negative r_s_t its own iteration wrote. */
  lemma {:induction false} LoopRecords(body: Body, bankSize: nat, n: nat, s: TrainState, i: nat)
    requires KeepsFit(body, bankSize, n) && Fits(s, bankSize, n) && i <= n
    requires WritesOwnSlot(body, bankSize, n)
    ensures var r := Loop(body, bankSize, n, s, i);
            r.Ok? ==>
              && (forall k :: 0 <= k < i ==> r.value.dRecord[k] == s.dRecord[k] && r.value.rRecord[k] == s.rRecord[k])
              && (forall k :: i <= k < n ==> r.value.rRecord[k] >= 0.0)
    decreases n - i
  {
    var r := Loop(body, bankSize, n, s, i);
    if i < n && r.Ok? {
      var next := body(s, i).value;
      assert r == Loop(body, bankSize, n, next, i + 1);
      assert RecordsAt(s, next, i);
      LoopRecords(body, bankSize, n, next, i + 1);
    }
  }

  /** A successful run from iteration i anneals the learning rate n - i times. */
  lemma {:induction false} LoopLearningRate(body: Body, bankSize: nat, n: nat, s: TrainState, i: nat,
                                            lrMin: real, decay: real)
    requires KeepsFit(body, bankSize, n) && Fits(s, bankSize, n) && i <= n
    requires AnnealsOnce(body, bankSize, n, lrMin, decay)
    ensures var r := Loop(body, bankSize, n, s, i);
            r.Ok? ==> r.value.lr == AnnealN(s.lr, lrMin, decay, n - i)
    decreases n - i
  {
    var r := Loop(body, bankSize, n, s, i);
    if i < n && r.Ok? {
      var next := body(s, i).value;
      assert r == Loop(body, bankSize, n, next, i + 1);
      LoopLearningRate(body, bankSize, n, next, i + 1, lrMin, decay);
      AnnealNShift(s.lr, lrMin, decay, n - (i + 1));
    }
  }

  /** A successful whole run anneals the learning rate once per iteration, so after at
      least one iteration it is never below lr_min. */
  lemma LoopLearningRateFromStart(body: Body, bankSize: nat, n: nat, s: TrainState, lrMin: real, decay: real)
    requires KeepsFit(body, bankSize, n) && Fits(s, bankSize, n)
    requires AnnealsOnce(body, bankSize, n, lrMin, decay)
    ensures var r := Loop(body, bankSize, n, s, 0);
            r.Ok? ==> r.value.lr == AnnealN(s.lr, lrMin, decay, n) && (n >= 1 ==> r.value.lr >= lrMin)
  {
    LoopLearningRate(body, bankSize, n, s, 0, lrMin, decay);
    if n >= 1 {
      AnnealFloor(s.lr, lrMin, decay, n);
    }
  }

  /** A successful run keeps the bank's rows `dim` wide, and leaves the bank untouched
      when no iteration touches it. */
  lemma {:induction false} LoopBank(body: Body, bankSize: nat, n: nat, s: TrainState, i: nat, dim: nat)
    requires KeepsFit(body, bankSize, n) && Fits(s, bankSize, n) && i <= n
    requires KeepsBankShaped(body, bankSize, n, dim)
    ensures var r := Loop(body, bankSize, n, s, i);
            && (r.Ok? && Shaped(s.bank, dim) ==> Shaped(r.value.bank, dim))
            && (r.Ok? && KeepsBank(body, bankSize, n) ==> r.value.bank == s.bank)
    decreases n - i
  {
    var r := Loop(body, bankSize, n, s, i);
    if i < n && r.Ok? {
      var next := body(s, i).value;
      assert r == Loop(body, bankSize, n, next, i + 1);
      LoopBank(body, bankSize, n, next, i + 1, dim);
    }
  }

  /** The trainer's loop body: iteration k with its own draws. */
  function TrainBody(cfg: Config, src: PositiveSource, nets: Networks, draws: nat -> IterDraws, bankSize: nat): Body
    requires StepsPositive(cfg)
    requires forall k :: ValidIterDraws(bankSize, src, draws(k))
  {
    (t: TrainState, k: nat) requires Fits(t, bankSize, cfg.numTrainIters) && k < cfg.numTrainIters =>
      Iteration(cfg, src, nets, t, k, draws(k))
  }

  /** Every trainer iteration runs on a fitting state and keeps the state's sizes. */
  lemma TrainBodyFits(cfg: Config, src: PositiveSource, nets: Networks, draws: nat -> IterDraws, bankSize: nat)
    requires StepsPositive(cfg)
    requires forall k :: ValidIterDraws(bankSize, src, draws(k))
    ensures KeepsFit(TrainBody(cfg, src, nets, draws, bankSize), bankSize, cfg.numTrainIters)
  {
    var body := TrainBody(cfg, src, nets, draws, bankSize);
    var n := cfg.numTrainIters;
    forall t: TrainState, k: nat | Fits(t, bankSize, n) && k < n
      ensures body.requires(t, k) && (body(t, k).Ok? ==> Fits(body(t, k).value, bankSize, n))
    {
      assert body(t, k) == Iteration(cfg, src, nets, t, k, draws(k));
    }
  }

  /** Every trainer iteration writes its own record slots and anneals once. */
  lemma TrainBodyRecords(cfg: Config, src: PositiveSource, nets: Networks, draws: nat -> IterDraws, bankSize: nat)
    requires StepsPositive(cfg)
    requires forall k :: ValidIterDraws(bankSize, src, draws(k))
    ensures var body := TrainBody(cfg, src, nets, draws, bankSize);
            && WritesOwnSlot(body, bankSize, cfg.numTrainIters)
            && AnnealsOnce(body, bankSize, cfg.numTrainIters, cfg.lrMin, cfg.lrDecay)
  {
    var body := TrainBody(cfg, src, nets, draws, bankSize);
    var n := cfg.numTrainIters;
    forall t: TrainState, k: nat | Fits(t, bankSize, n) && k < n && body.requires(t, k) && body(t, k).Ok?
      ensures RecordsAt(t, body(t, k).value, k)
      ensures body(t, k).value.lr == Anneal(t.lr, cfg.lrMin, cfg.lrDecay)
    {
      assert body(t, k) == Iteration(cfg, src, nets, t, k, draws(k));
      IterationRecords(cfg, src, nets, t, k, draws(k));
    }
  }

  /** Every trainer iteration keeps the bank's row width, and leaves the bank alone
      unless the short-run policy is persistent. */
  lemma TrainBodyBank(cfg: Config, src: PositiveSource, nets: Networks, draws: nat -> IterDraws, bankSize: nat)
    requires StepsPositive(cfg)
    requires forall k :: ValidIterDraws(bankSize, src, draws(k))
    ensures var body := TrainBody(cfg, src, nets, draws, bankSize);
            && KeepsBankShaped(body, bankSize, cfg.numTrainIters, cfg.sampler.dim)
            && (cfg.initType != "persistent" ==> KeepsBank(body, bankSize, cfg.numTrainIters))
  {
    var body := TrainBody(cfg, src, nets, draws, bankSize);
    var n := cfg.numTrainIters;
    forall t: TrainState, k: nat | Fits(t, bankSize, n) && k < n && body.requires(t, k) && body(t, k).Ok?
      ensures Shaped(t.bank, cfg.sampler.dim) ==> Shaped(body(t, k).value.bank, cfg.sampler.dim)
      ensures cfg.initType != "persistent" ==> body(t, k).value.bank == t.bank
    {
      assert body(t, k) == Iteration(cfg, src, nets, t, k, draws(k));
      IterationBank(cfg, src, nets, t, k, draws(k));
    }
  }

  function Zeros(n: nat): (z: seq<real>)
    ensures |z| == n && forall k :: 0 <= k < n ==> z[k] == 0.0
  {
    seq(n, _ => 0.0)
  }

  /** Before the first iteration: the bank drawn uniformly from [-1, 1), the prescaled
      initial learning rate, and zeroed records. */
  function InitialState(cfg: Config, src: PositiveSource, setup: OptimizerSetup, bankDraw: (nat, nat) -> Unit): (s: TrainState)
    ensures Fits(s, BankSize(cfg, src), cfg.numTrainIters)
  {
    TrainState(InitBank(BankSize(cfg, src), cfg.sampler.dim, bankDraw), setup.lrInit,
               Zeros(cfg.numTrainIters), Zeros(cfg.numTrainIters))
  }

  /** A whole training run: optimizer setup (with the SGD prescale, which also applies to
      lr_min), the bank, then num_train_iters iterations. */
  function Train(cfg: Config, src: PositiveSource, nets: Networks, draws: nat -> IterDraws,
                 bankDraw: (nat, nat) -> Unit): (r: Result<TrainState>)
    requires StepsPositive(cfg)
    requires forall k :: ValidIterDraws(BankSize(cfg, src), src, draws(k))
    ensures cfg.netType !in NetNames(cfg.side) ==> r == Err(UnknownNetType)
    ensures (cfg.netType in NetNames(cfg.side) && !(cfg.optimizer == "adam" || cfg.optimizer == "sgd"))
              ==> r == Err(UnknownOptimizer)
    ensures r.Ok? ==> Fits(r.value, BankSize(cfg, src), cfg.numTrainIters)
  {
    if cfg.netType !in NetNames(cfg.side) then Err(UnknownNetType) else
    var setup :- SetupOptimizer(cfg.optimizer, cfg.sampler.epsilon, cfg.lrInit, cfg.lrMin);
    var cfg' := cfg.(lrMin := setup.lrMin);
    var size := BankSize(cfg, src);
    TrainBodyFits(cfg', src, nets, draws, size);
    Loop(TrainBody(cfg', src, nets, draws, size), size, cfg.numTrainIters, InitialState(cfg, src, setup, bankDraw), 0)
  }

  /** Train is the network lookup and the optimizer setup, each failing on an unknown
      name in that order, followed by the loop over the trainer's body, whose lr_min is
      the prescaled one. */
  lemma TrainIsLoop(cfg: Config, src: PositiveSource, nets: Networks, draws: nat -> IterDraws,
                    bankDraw: (nat, nat) -> Unit)
    requires StepsPositive(cfg)
    requires forall k :: ValidIterDraws(BankSize(cfg, src), src, draws(k))
    ensures var setup := SetupOptimizer(cfg.optimizer, cfg.sampler.epsilon, cfg.lrInit, cfg.lrMin);
            var size := BankSize(cfg, src);
            var known := cfg.netType in NetNames(cfg.side);
            && (!known ==> Train(cfg, src, nets, draws, bankDraw) == Err(UnknownNetType))
            && (known && setup.Err? ==> Train(cfg, src, nets, draws, bankDraw) == Err(setup.error))
            && (known && setup.Ok? ==>
                  var body := TrainBody(cfg.(lrMin := setup.value.lrMin), src, nets, draws, size);
                  && KeepsFit(body, size, cfg.numTrainIters)
                  && Train(cfg, src, nets, draws, bankDraw)
                     == Loop(body, size, cfg.numTrainIters, InitialState(cfg, src, setup.value, bankDraw), 0))
  {
    var setup := SetupOptimizer(cfg.optimizer, cfg.sampler.epsilon, cfg.lrInit, cfg.lrMin);
    if setup.Ok? && cfg.netType in NetNames(cfg.side) {
      TrainBodyFits(cfg.(lrMin := setup.value.lrMin), src, nets, draws, BankSize(cfg, src));
    }
  }

  /** After a successful run every r_s_t slot holds a non-negative value, the bank has
      the configured row width, and a bank a non-persistent policy never uses is still
      the initial uniform draw. */
  lemma TrainOutcome(cfg: Config, src: PositiveSource, nets: Networks, draws: nat -> IterDraws,
                     bankDraw: (nat, nat) -> Unit)
    requires StepsPositive(cfg)
    requires forall k :: ValidIterDraws(BankSize(cfg, src), src, draws(k))
    ensures var r := Train(cfg, src, nets, draws, bankDraw);
            r.Ok? ==>
              && (forall k :: 0 <= k < cfg.numTrainIters ==> r.value.rRecord[k] >= 0.0)
              && Shaped(r.value.bank, cfg.sampler.dim)
              && (cfg.initType != "persistent" ==>
                    r.value.bank == InitBank(BankSize(cfg, src), cfg.sampler.dim, bankDraw))
  {
    TrainIsLoop(cfg, src, nets, draws, bankDraw);
    var setup := SetupOptimizer(cfg.optimizer, cfg.sampler.epsilon, cfg.lrInit, cfg.lrMin);
    if setup.Ok? && cfg.netType in NetNames(cfg.side) {
      var cfg' := cfg.(lrMin := setup.value.lrMin);
      var size := BankSize(cfg, src);
      var s0 := InitialState(cfg, src, setup.value, bankDraw);
      var body := TrainBody(cfg', src, nets, draws, size);
      TrainBodyRecords(cfg', src, nets, draws, size);
      TrainBodyBank(cfg', src, nets, draws, size);
      LoopRecords(body, size, cfg.numTrainIters, s0, 0);
      LoopBank(body, size, cfg.numTrainIters, s0, 0, cfg.sampler.dim);
    }
  }

  /** The final learning rate is the prescaled lr_init annealed once per iteration
      against the prescaled lr_min; after at least one iteration it is never below that
      floor. */
  lemma TrainLearningRate(cfg: Config, src: PositiveSource, nets: Networks, draws: nat -> IterDraws,
                          bankDraw: (nat, nat) -> Unit)
    requires StepsPositive(cfg)
    requires forall k :: ValidIterDraws(BankSize(cfg, src), src, draws(k))
    ensures var r := Train(cfg, src, nets, draws, bankDraw);
            var setup := SetupOptimizer(cfg.optimizer, cfg.sampler.epsilon, cfg.lrInit, cfg.lrMin);
            r.Ok? ==>
              && cfg.netType in NetNames(cfg.side)
              && setup.Ok?
              && r.value.lr == AnnealN(setup.value.lrInit, setup.value.lrMin, cfg.lrDecay, cfg.numTrainIters)
              && (cfg.numTrainIters >= 1 ==> r.value.lr >= setup.value.lrMin)
  {
    TrainIsLoop(cfg, src, nets, draws, bankDraw);
    var setup := SetupOptimizer(cfg.optimizer, cfg.sampler.epsilon, cfg.lrInit, cfg.lrMin);
    if setup.Ok? && cfg.netType in NetNames(cfg.side) {
      var cfg' := cfg.(lrMin := setup.value.lrMin);
      var size := BankSize(cfg, src);
      var s0 := InitialState(cfg, src, setup.value, bankDraw);
      var body := TrainBody(cfg', src, nets, draws, size);
      TrainBodyRecords(cfg', src, nets, draws, size);
      LoopLearningRateFromStart(body, size, cfg.numTrainIters, s0, setup.value.lrMin, cfg.lrDecay);
    }
  }
}
