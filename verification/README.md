# Short-run MCMC trainer bookkeeping, modelled in Dafny

This project models the logic that wraps the numerics of the maximum-likelihood
energy-based-model trainer of `ebm-anatomy`. The image trainer (`train_data.py`) and
the toy trainer (`train_toy.py`) are near copies, so one shared model serves both:

- `Tensors`: batches of flattened states (`seq<seq<real>>`), sums and means. A state's
  `[C, H, W]` layout is kept only as its entry count, `SamplerConfig.dim`.
- `ChainBank`: the persistent chain bank `s_t_0`. It covers its uniform
  initialisation, `sample_image_set` (a prefix of a random permutation) and the
  write-back `s_t_0[inds] = x`.
- `Initialisation`: `sample_q` and the `init_type` dispatch of `sample_s_t_0`
  (`persistent`, `data`, `uniform`, `gaussian`; anything else raises). The toy trainer's
  `noise_init_factor` is a parameter; the image trainer's code corresponds to factor 1.
- `Langevin`: the `L` strictly sequential updates `x <- x - f'(x) + epsilon * noise`
  and the reported gradient magnitude `r_s_t = (sum of per-step mean norms) / L`. The
  method `RunSteps` holds the `while` loop and its invariants, and `LangevinLoop` divides
  its accumulated norm by `L`. The recursive `Chain` and `AccNorm` are their reference
  definitions.
- `Sampler`: `sample_s_t` as a whole. It returns the final states, `r_s_t` and the
  bank the call leaves behind.
- `Schedule`: the SGD learning-rate prescale, the loss `d_s_t` with its `2 / epsilon^2`
  scaling, the annealing `lr <- max(lr_min, lr * lr_decay)`, and the iteration-counter
  tests for logging, plotting, long-run sampling (image) and visualisation (toy).
- `Training`: one loop iteration and the whole run. A generic `Loop` over a loop body
  is instantiated with the trainer's iteration.

The energy network `f` is opaque. Each optimizer step yields a new network version,
given as a family `Networks` indexed by the iteration number: its batch-mean energy,
the entrywise gradient of its summed energy, and the row L2 norm. All randomness is
passed in as data: `randperm` as a permutation sequence, `rand`/`randn` draws as
functions of their indices, the Langevin noise as a function of (step, row, entry).
Python exceptions become `Errors.Result` values: `InvalidInitType`, `UnknownNetType`, `UnknownOptimizer`,
`ZeroModulo` (a `% 0` in a schedule test) and `EmptyBatch`.

The persistent policy slices `randperm(N)[0:batch_size]`, which silently yields
`min(batch_size, N)` indices; nothing rejects `batch_size > N`.
`ChainBank.SampleImageSet` models the slice.

## Model

| member | source | states |
|---|---|---|
| ChainBank.InitBank | train_toy.py:73-75 | the bank has exactly `s_t_0_size` slots of the element size, each entry `2u - 1` for its uniform draw `u`, so in [-1, 1) |
| ChainBank.SampleImageSet | train_data.py:93-95 | exactly `min(batch_size, N)` indices, pairwise distinct, all below N, a prefix of the permutation; the returned rows are the bank rows at those indices |
| ChainBank.WriteBack | train_data.py:130-132 | the bank keeps its length; slot `inds[k]` holds the k-th final state; every slot not selected is unchanged |
| ChainBank.WriteBackShaped | train_toy.py:116-118 | writing back states of the bank's element size keeps every slot at that size |
| ChainBank.WriteThenRead | train_toy.py:83-85 | selecting the same slots again after a write-back reads back exactly the written states |
| Initialisation.ParseInit | train_data.py:105-117 | each of the four policy names maps to its policy; every other value is the `InvalidInitType` error |
| Initialisation.ParseInitName | train_toy.py:93-103 | parsing a policy's own name gives back that policy (round trip) |
| Initialisation.SampleQ | train_data.py:98-100 | image positives are the selected dataset rows, each entry offset by exactly `data_epsilon` times its Gaussian draw; toy positives are the generator's batch |
| Initialisation.SampleQNoiseless | train_data.py:98-100 | with `data_epsilon = 0` the positives are exactly the selected dataset rows |
| Initialisation.SampleInit | train_toy.py:93-103 | only `persistent` yields indices, and they are distinct, in range, with the matching bank rows; `data` yields a `sample_q` batch; `uniform` and `gaussian` yield `batch_size` rows of the element size, uniform values exactly `noise_init_factor * (2u - 1)` for their draw `u` and so bounded by it, Gaussian values the draw scaled by it |
| Initialisation.UniformBound | train_toy.py:99 | `noise_init_factor * (2u - 1)` lies within plus or minus `noise_init_factor` |
| Langevin.GradAt | train_data.py:126 | `f_prime` has the batch's layout: one row per state, each as long as that state |
| Langevin.Update | train_data.py:127 | the in-place update keeps the batch size and every state's entry count |
| Langevin.Step | train_data.py:126-127 | one Langevin update, gradient taken at the current state, keeps the batch's shape |
| Langevin.StepNorm | train_data.py:128 | the batch mean of the per-state gradient L2 norms is never negative |
| Langevin.StepEntry | train_data.py:126-127 | one update moves entry (i, j) by minus the gradient there plus epsilon times that step's draw |
| Langevin.ChainShape | train_data.py:123-127 | any number of updates keeps the batch size and every state's entry count |
| Langevin.AccNormNonNeg | train_data.py:128 | the accumulated per-step mean gradient norm is never negative |
| Langevin.AccNormConstant | train_data.py:124-128 | when each step sees the same mean gradient norm m, the accumulator after k steps is m added k times |
| Langevin.StepAndRecord | train_data.py:126-128 | one loop pass advances the chain by exactly one update and the accumulator by exactly that step's mean norm |
| Langevin.RunSteps | train_data.py:123-128 | the loop performs exactly L sequential updates, and the accumulator is the sum of the L per-step mean norms |
| Langevin.LangevinLoop | train_data.py:122-134 | the result is the L-step chain, of the input batch's shape, and `r` is the accumulated norm divided by L, never negative |
| Langevin.ChainTelescopes | train_toy.py:111-113 | after k updates an entry is its start value plus one increment per update, in order, step l using draw l |
| Langevin.ConstantNormReport | train_toy.py:110-120 | when every step sees the same mean gradient norm m, the reported `r_s_t` is m |
| Sampler.SampleST | train_data.py:103-134 | an unknown `init_type` fails with `InvalidInitType`; a known one fails only on an empty batch; on success the bank keeps its length and `r_s_t` is non-negative |
| Sampler.SampleSTSucceeds | train_data.py:105-120 | success conditions by policy: `persistent` needs a non-empty slice of the bank, `uniform` and `gaussian` a positive `batch_size`, image `data` a non-empty slice of the dataset |
| Sampler.PersistentFinalStates | train_data.py:106-107 | a persistent call returns the L-step chain started from the bank rows at the first `min(batch_size, N)` permuted slots, and `r_s_t` is the sum of the per-step mean gradient norms along that chain divided by L |
| Sampler.DataFinalStates | train_data.py:108-109 | a `data` call returns the L-step chain started from a `sample_q` batch, and `r_s_t` is the per-step mean gradient norms along it summed and divided by L |
| Sampler.NoiseReport | train_data.py:110-134 | a `uniform` or `gaussian` call returns the L-step chain from its noise draw, and `r_s_t` is the per-step mean gradient norms along it summed and divided by L |
| Sampler.NoiseFinalStates | train_toy.py:98-101 | a `uniform` or `gaussian` call returns exactly `batch_size` states of the configured element size |
| Sampler.SampleSTBank | train_data.py:130-132 | with `persistent` and `update_s_t_0` the selected slots hold the final states and all others are unchanged; otherwise the bank is entirely unchanged; row width is kept |
| Sampler.PersistentResume | train_toy.py:116-118 | after an updating persistent call, selecting the same slots again yields exactly that call's final states |
| Schedule.SetupOptimizer | train_data.py:63-68 | `lr_init` and `lr_min` are multiplied by `epsilon^2 / 2` exactly when the optimizer is `sgd` and epsilon > 0, and otherwise untouched; their order is kept; any other optimizer name fails |
| Schedule.Loss | train_data.py:152-155 | `d_s_t` times `epsilon^2 / 2` is the energy difference when epsilon > 0, and it is the plain difference otherwise; its sign is that of the difference |
| Schedule.LossAntisymmetric | train_toy.py:138-141 | swapping the positive and negative batches negates `d_s_t` |
| Schedule.PrescaleCancelsLossScale | train_toy.py:62-66 | with SGD, the prescaled learning rate times the scaled loss equals the unscaled rate times the unscaled energy difference |
| Schedule.Anneal | train_data.py:166-167 | the new rate is the larger of `lr_min` and `lr * lr_decay` |
| Schedule.AnnealNShift | train_toy.py:152-153 | annealing m + 1 times is annealing m times from the once-annealed rate |
| Schedule.AnnealFloor | train_data.py:165-167 | after at least one iteration the rate is never below `lr_min` |
| Schedule.AnnealStepNonIncreasing | train_toy.py:151-153 | with `decay <= 1`, `0 <= lr` and `lr_min <= lr`, one step never raises the rate |
| Schedule.AnnealNonIncreasing | train_data.py:165-167 | with `decay <= 1` and `0 <= lr_min <= lr`, the rate is non-increasing across iterations and stays at least `lr_min` |
| Schedule.AnnealClosedForm | train_data.py:166-167 | with `0 <= decay <= 1` and `0 <= lr_min`, after n >= 1 iterations the rate is `max(lr_min, lr * decay^n)` |
| Schedule.Periodic | train_data.py:181 | `(i + 1) % freq == 0` fails for a zero period and otherwise holds exactly when freq divides i + 1 |
| Schedule.LogDue | train_data.py:170 | the first iteration always logs without evaluating the modulo; later ones log exactly when `log_freq` is non-zero and divides i + 1, and fail exactly when it is zero |
| Schedule.PlotDue | train_data.py:177-178 | diagnostics are plotted only inside a logging iteration and only when i + 1 > 1 |
| Training.SideDue | train_toy.py:165 | the side test is on for the toy trainer and for an enabled long run; it then fails with `ZeroModulo` exactly for a zero frequency, even at i = 0, and is due exactly when the frequency divides i + 1 |
| Schedule.LongRunDue | train_data.py:181 | the test fails, with `ZeroModulo`, exactly when enabled with a zero frequency, and is due exactly when enabled and the non-zero frequency divides i + 1 |
| Schedule.PeriodicCountClosedForm | train_toy.py:165 | over n iterations a periodic test with period freq fires n / freq times |
| Schedule.LogCountClosedForm | train_toy.py:156 | over n >= 1 iterations logging fires n / freq times, plus once for the first iteration unless freq is 1 |
| Training.Iteration | train_data.py:146-167 | a successful iteration anneals the rate once and keeps the bank and record lengths |
| Training.Advance | train_data.py:162-167 | the bank is the short-run call's; the rate is annealed once and never below `lr_min`; slot i of the records takes `d_s_t` and `r_s_t`, every other slot and both lengths are unchanged |
| Training.Diagnostics | train_data.py:170-183 | a zero `log_freq` fails every iteration after the first with `ZeroModulo`; past the logging test, a zero side frequency fails with `ZeroModulo`, a due side call's failure is the result, a successful due call gives `true`, and no side sampling due gives `false` |
| Training.LongRunInitErrors | train_data.py:181-183 | an unknown `longrun_init` fails the diagnostics with `InvalidInitType` exactly on the iterations the long-run test fires |
| Training.IterationRecords | train_data.py:162-163 | iteration i writes record slot i and no other; `r_s_t_record[i]` is the short-run call's non-negative `r_s_t`; `d_s_t_record[i]` is that iteration's scaled loss of the positive and short-run batches, positive exactly when the positive batch has the higher mean energy |
| Training.IterationBank | train_data.py:148-149 | the bank after an iteration is the one the short-run call left; it keeps its row width, and is unchanged for a non-persistent short-run policy |
| Training.SideRunKeepsBank | train_data.py:181-183 | the long-run (image) or KDE (toy) sampling returns the bank exactly as it received it |
| Training.IterationErrors | train_toy.py:156-168 | an unknown short-run policy fails the iteration; a zero log frequency fails every iteration after the first; a zero side-test frequency fails it with `ZeroModulo`; a failing due side call fails it with that call's error |
| Training.Loop | train_toy.py:132 | a successful run from any fitting state keeps the bank size and the record lengths, and a run with no iterations left returns its state unchanged |
| Training.LoopRecords | train_toy.py:148-149 | after a run, earlier record slots are untouched and every slot the run visited holds a non-negative `r_s_t` |
| Training.LoopLearningRate | train_toy.py:151-153 | a run from iteration i anneals the rate exactly n - i times |
| Training.LoopLearningRateFromStart | train_data.py:165-167 | a whole run ends at the rate annealed num_train_iters times, never below `lr_min` once one iteration ran |
| Training.LoopBank | train_toy.py:116-118 | a run keeps the bank's row width, and leaves the bank untouched when no iteration touches it |
| Training.TrainBodyFits | train_toy.py:128-135 | the trainer's iteration can run on every fitting state and keeps its sizes |
| Training.TrainBodyRecords | train_toy.py:147-153 | the trainer's iteration writes only its own record slots and anneals once |
| Training.TrainBodyBank | train_toy.py:134-135 | the trainer's iteration keeps the bank's width and leaves it alone unless the policy is persistent |
| Training.InitialState | train_data.py:141-143 | the starting state fits: a bank of the configured size and records with one slot per iteration |
| Training.Train | train_data.py:60-68 | an unknown `net_type` fails the run; a known one with an unknown optimizer fails it with `UnknownOptimizer`; a successful run leaves a bank of the initial size and full-length records |
| Training.TrainIsLoop | train_data.py:60-68 | the `net_bank` lookup fails first, then the optimizer lookup with its own error; a run with a known network and optimizer is the loop over the trainer's iteration from the initial state, with the prescaled `lr_min` |
| Training.TrainOutcome | train_data.py:141-163 | after a run every `r_s_t` slot is non-negative, the bank has the configured width, and a bank a non-persistent policy never uses is still its initial draw |
| Training.TrainLearningRate | train_toy.py:62-66 | the final rate is the prescaled `lr_init` annealed once per iteration against the prescaled `lr_min`, never below it after one iteration |

## Left out

- Trainer-specific configuration: a `Config` may pair the image trainer's long-run side
  sampling with any `noise_init_factor`, and the image bank's width `dim` is not tied to
  the dataset rows (`s_t_0 = 2 * rand_like(q) - 1` takes `q`'s shape). The trainer is
  read twice: `NetNames` goes by the side-sampling variant and `BankSize` by the positive
  source, and nothing ties the two, so a dataset source with KDE side sampling is accepted
  although neither script has it. The model covers both trainers with one configuration
  type and proves its facts for every such choice.

- The network `f` and autograd (`VanillaNet`, `NonlocalNet`, `ToyNet`): modelled as
  opaque functions for the batch-mean energy, the entrywise input gradient and the
  row L2 norm. `nets.py` is not part of this model.
- The optimizer's parameter update (`zero_grad`, `backward`, `step`): it is seen only
  through the next network version.
- Float semantics: states and scalars are `real`, so NaN, infinities and Langevin
  divergence do not arise. `L > 0` is required, because torch gives NaN for `r / 0`.
- An empty mean is taken to be 0; torch gives NaN. Calls with an empty batch fail with
  `EmptyBatch` before any mean is taken, because `view(0, -1)` raises in torch.
- Random number generation and seeding (`randperm`, `rand`, `randn`, `manual_seed`):
  the draws are inputs.
- Dataset loading and transforms, `download_flowers_data` and `ToyDataset`: the image
  dataset is an input sequence, and the toy generator's batch is an input.
- All I/O: JSON config loading, the experiment directory and its "already exists"
  error, `save_code`, checkpoints via `t.save`, `plot_ims`, `plot_diagnostics`,
  `plot_toy_density` and printing. Only whether the side sampling succeeds is kept.
- The network `net_bank[net_type]` builds: only whether `net_type` is one of its keys is
  kept (an unknown key raises `KeyError`, modelled as `UnknownNetType`).
- A negative `batch_size`: Python's slice `[0:batch_size]` then yields `max(0, N + batch_size)`
  indices; the model types every batch size as `nat`, so this case is not represented.
- Device selection (CUDA/CPU).
- Initialisation.SampleQ: the length of the toy batch from `sample_toy_data` is not
  constrained, because `ToyDataset` is outside the model.
- Training.LoopRecords: states non-negativity of the written `r_s_t` slots, not their
  exact values; `Training.IterationRecords` states the per-iteration values.
