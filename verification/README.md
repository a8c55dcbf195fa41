# TranAD training engine: a Dafny model

This project models the discrete core of `main.py` in a TranAD-style repository
for multivariate time-series anomaly detection. The neural networks and their
floating-point losses are treated as opaque. What remains is modelled and proved:

- **Sliding windows** (`Windows`, `Seqs`). `convert_to_windows` gives every
  timestep `i` of a `T x F` series one window of `w` rows. When `i >= w` the rows
  are `i-w .. i-1`. Otherwise the first row is repeated `w-i` times, followed by
  rows `0 .. i-1`. Families whose name mentions "TranAD" or "Attention" keep the
  rows. Every other windowed family flattens the window row-major into `w*F` values, and
  its inference branches report the last `F` of them. The model proves three
  things here:
  - no window reads outside the series;
  - window `i` never contains timestep `i` (except `i = 0`), and windows 0 and 1
    are pure padding;
  - the reported columns of window `t` are series row `t-1`. So the target side
    of the reported error is the series delayed by one step.
- **Family dispatch** (`Dispatch`). `backprop` picks the first branch whose test
  holds. The tests, in order, are the substrings "DAGMM", "Attention",
  "OmniAnomaly" and "USAD", exact membership in {GDN, MTAD_GAT, MSCRED, CAE_M},
  the substrings "GAN" and "TranAD", and finally a default branch. Each branch
  takes a number of `optimizer.step()` and `scheduler.step()` calls per
  training call that is fixed by the family and the window count (and, for
  TranAD, the mini-batch size). Inference calls take neither.
- **Mini-batching** (`Batching`). TranAD cuts its windows into consecutive
  mini-batches of `model.batch` windows. Its inference pass concatenates one
  score per window, giving back exactly `T` scores in order.
- **Epoch driver and checkpoint** (`Driver`). A `Trainer` class holds the start
  epoch, the parameters, the optimizer and scheduler step counts,
  `accuracy_list` and the checkpoint file's content:
  - `load_model` restores the checkpoint iff it exists and
    `(not retrain or test)`;
  - the loop runs epochs `epoch+1 .. epoch+epochs`, appending one record and
    overwriting the checkpoint each epoch. A training call's numerics are one
    function of the epoch, the parameters and the restored optimizer and
    scheduler step counts;
  - for deterministic numerics, resuming from a saved checkpoint gives the same
    state as an uninterrupted run.
- **Aggregation** (`Labels`). The per-timestep label is `(sum of channel labels
  >= 1) + 0`, which is the OR of 0/1 channel labels. The scores are first
  reshaped to a single column (line 455), so the mean over channels at line 462
  returns every score unchanged. For a family whose scores are `T x F`, that is
  `T*F` values in row-major order, not one mean per timestep.

Three behaviours of the code are easy to miss:

- The graph-family (GDN, MTAD_GAT, MSCRED, CAE_M) and GAN branches never step
  the scheduler. It is not stepped once per epoch for every family.
- A model name must first name a class of `src.models`: `getattr` (line 82)
  raises for any other name. Only an existing class whose name passes none of
  the branch tests reaches the default branch (line 359).
- Windows for `i >= w` exclude timestep `i` itself.

## Model

| member | source | states |
|---|---|---|
| `Text.ContainsIff` | main.py:32 | Python's `sub in s` holds exactly when `sub` occurs at some position of `s` |
| `Seqs.FlattenLength` | main.py:32 | flattening a `n x f` window gives `n*f` values |
| `Seqs.FlattenIndex` | main.py:32 | flattened value `j*f+k` is row `j`, column `k` (row-major `view(-1)`) |
| `Windows.KeepsRows` | main.py:32 | a window is kept as rows exactly when "TranAD" or "Attention" occurs somewhere in the model name |
| `Windows.SourceRow` | main.py:27-30 | row `j` of window `i` comes from index `i-w+j` when `i >= w`; padding rows come from 0; the index is always `<= i` and `< i` once `i > 0` |
| `Windows.WindowAt` | main.py:27-30 | every window has `w` rows, and row `j` equals the series row `SourceRow(w,i,j)`, which lies inside the series |
| `Windows.ConvertToWindows` | main.py:23-34 | the loop yields one window per timestep in order, kept as rows or flattened according to the model name; an empty series is an error (stacking nothing fails) |
| `Windows.EarliestWindowsArePadding` | main.py:29-30 | windows 0 and 1 are both `w` copies of the first row |
| `Windows.FlatWindows` | main.py:32 | one flat window per timestep, each the row-major `view(-1)` of that timestep's window |
| `Windows.FlatWindowEntry` | main.py:32 | a flat window has `w*F` values, and value `j*F+k` is column `k` of the series row that window row `j` copies |
| `Windows.LastColumns` | main.py:132 | the slice `[n-feats : n]` of a flat window has `feats` values, the `k`-th being value `n-feats+k` |
| `Windows.ReportedRows` | main.py:132-135 | one reported row of `feats` values per window, each the last `feats` values of that window |
| `Windows.FlatWindowLastColumns` | main.py:132 | the last `F` values of flat window `i` are series row `i-1` (row 0 when `i = 0`) |
| `Windows.ReportedRowsLagByOne` | main.py:132-135 | slicing the last `feats` columns of every flat window gives the series shifted by one step: `[data[0]] + data[..T-1]` |
| `Dispatch.FamilyOf` | main.py:106-359 | the chosen branch's test holds for the name, and the test of every earlier branch fails |
| `Dispatch.FirstMatchIsFamilyOf` | main.py:106-359 | any family whose test holds while all earlier tests fail is the one chosen, so branch selection is unique |
| `Dispatch.MadGanIsGan` | main.py:256 | the name "MAD_GAN" passes every earlier test and lands in the GAN branch |
| `Dispatch.SchedulerStepsPerCall` | main.py:102-371 | a call steps the scheduler at most once, and exactly once iff it is a training call outside the graph and GAN branches |
| `Dispatch.OptimizerStepsPerCall` | main.py:122-367 | a training call over `n` windows takes `n` optimizer steps in the DAGMM, Attention, OmniAnomaly, USAD and graph branches, `2n` in the GAN branch, the ceiling of `n` over the batch size in the TranAD branch and one in the default branch; at least one whenever `n > 0` |
| `Dispatch.BatchCount` | main.py:308 | the number of mini-batches `c` of size `b` for `n` windows is the ceiling: `(c-1)*b < n <= c*b` |
| `Dispatch.OmniAnomalyReadsUnboundLoss` | main.py:171 | the OmniAnomaly branch reads `l`, but no binding of `l` exists on that path |
| `Dispatch.LossBinding` | main.py:105-107 | with the OmniAnomaly branch reading the function-wide loss, every branch that reads `l` finds it bound; other branches are unchanged |
| `Dispatch.CompletesAsWritten` | main.py:166-188 | as written, a call gets past its reads of `l` exactly when it does not read an unbound `l`, that is, exactly where the corrected binding changes nothing; the OmniAnomaly call raises at its first read of `l`, line 171 when training and line 188 otherwise; on a non-empty series a training call gets there before its steps at lines 178 and 180 |
| `Batching.Chunks` | main.py:307-308 | mini-batches concatenate back to the windows; there are `BatchCount` of them, each non-empty and at most `b` long, all but the last exactly `b` |
| `Batching.BatchedScores` | main.py:347-358 | the TranAD inference pass returns exactly one score per window, the `i`-th being window `i`'s score |
| `Driver.LoadModel` | main.py:79-99 | the checkpoint is restored iff it exists and `(not retrain or test)`; otherwise the start is epoch -1 with fresh parameters, zero steps and an empty history |
| `Driver.EpochStep` | main.py:414-419 | one epoch steps the scheduler once except for the graph and GAN families, takes at least one optimizer step when there is data, and appends exactly the record the numerics return for that epoch |
| `Driver.Epochs` | main.py:414 | running `n` epochs lengthens the history by `n` |
| `Driver.EpochsAppendOnly` | main.py:414-418 | `n` epochs append exactly `n` records and leave the earlier history untouched |
| `Driver.EpochsSteps` | main.py:414-419 | `n` epochs advance the scheduler and the optimizer by `n` times the per-call step counts of the family |
| `Driver.EpochsRecord` | main.py:414-418 | record `k` of a run is the record of epoch `first+k`, computed from the parameters after `k` epochs |
| `Driver.EpochsCompose` | main.py:414 | running `a` epochs and then `b` more from epoch `first+a` equals running `a+b` epochs |
| `Driver.SchedulerIdleForGraphAndGan` | main.py:225-293 | for the graph and GAN families the scheduler step count never changes across epochs |
| `Driver.ResumeMatchesUninterrupted` | main.py:87-98 | saving after `a` fresh epochs, reloading without forced retrain and running `b` more gives the same state as `a+b` uninterrupted epochs |
| `Driver.Trainer.constructor` | main.py:79-99 | the trainer's epoch and state are those `LoadModel` decides, and the checkpoint file is left as found |
| `Driver.Trainer.TrainCall` | main.py:102-371 | one training call applies the numerics once, adds the family's optimizer steps (per window, two per window for GAN, per mini-batch for TranAD, one for default) and its scheduler step, and changes nothing else |
| `Driver.Trainer.TrainEpochs` | main.py:414-419 | the start epoch is unchanged; the new state is `epochs` epochs run from `epoch+1`; the checkpoint then holds epoch `epoch+epochs` and the final state (unchanged when `epochs = 0`) |
| `Labels.AggregateLabel` | main.py:463 | the timestep label is always 0 or 1 |
| `Labels.SumReachesOne` | main.py:463 | for non-negative channel labels, the sum is `>= 1` iff some channel is `>= 1` |
| `Labels.AggregateLabelIsOr` | main.py:463 | for 0/1 channel labels, the timestep label is 1 iff some channel is 1 (logical OR) |
| `Labels.AggregateLabels` | main.py:463 | one label per timestep, each the aggregate of that timestep's channels |
| `Labels.MeanRows` | main.py:462 | `np.mean(axis=1)` gives one value per row |
| `Labels.MeanOfSingleChannel` | main.py:462 | with a single channel, the mean returns that channel unchanged |
| `Labels.AsColumn` | main.py:455 | `reshape(-1, 1)` gives one single-value row per score, in row-major order |
| `Labels.ReshapedMeanIsFlatten` | main.py:455-462 | after the reshape, the mean of line 462 returns all `T*F` scores of a `T x F` score matrix in row-major order |

## Findings

| source | as written | input that shows it | evidently intended | confidence | as-written member | corrected member |
|---|---|---|---|---|---|---|
| main.py:171 | The OmniAnomaly branch computes `l(y_pred, d)` (also at line 188), but this branch never binds `l`. Other branches bind `l`, so Python treats it as a local and raises `UnboundLocalError`. The function-wide loss is bound as `loss_fn` at line 105. | any model name containing "OmniAnomaly", in training or in inference | the branch uses the function-wide MSE loss: mean reduction when training, element-wise otherwise | high (not executed) | `Dispatch.OmniAnomalyReadsUnboundLoss` | `Dispatch.LossBinding` |

`Driver.Trainer.TrainCall` models the corrected behaviour: an OmniAnomaly training
call completes with one optimizer step per window and one scheduler step.

## Left out

- All tensor numerics are opaque: forward passes, the MSE/KLD/BCE/L2 losses, the USAD weights `1/n` and `1-1/n`, and the TranAD factor `1.25**-epoch`. They are floating point, and the networks are not part of this model. A training call's numerics are one function from (epoch, parameters, optimizer steps, scheduler steps) to (record, parameters).
- Autograd, `zero_grad`, the `retain_graph` ordering, and AdamW/StepLR internals including the learning-rate values are left out. Only the counts of `optimizer.step()` and `scheduler.step()` calls are kept.
- The hidden state threaded through the OmniAnomaly and MTAD_GAT loops (lines 170, 185, 233) is not modelled; the MTAD_GAT inference loop passes `None` on every window (line 247) and threads nothing.
- The inference passes of the non-TranAD families are not modelled as methods. Their reported columns are covered by `Windows.ReportedRowsLagByOne`.
- Dataset loading, file prefixes, `torch.save`/`torch.load` and checkpoint paths are I/O. The checkpoint file is a value of type `Option<Checkpoint>`.
- The choice of which model names get windowed at all (lines 397-408) is not modelled.
- The model takes `args.model` and `model.name` to be the same string.
- wandb, tqdm, printing, plotting, MERLIN `eval`, `pot_eval`, `hit_att` and `ndcg` are telemetry or code outside this model.
- `Driver.Trainer.TrainEpochs`: treats each epoch record as opaque. As written, every family but TranAD returns a scalar loss (`np.float64` or `float`), so `lossT[0]` at line 418 raises in the first epoch, before anything is appended or saved; the model lets every family append and save.
- `Driver.Trainer.TrainCall`: does not model the OmniAnomaly branch as written, which raises (see Findings); it models the corrected branch.
- `Dispatch.SchedulerStepsPerCall`: gives the OmniAnomaly training call the corrected single scheduler step. As written, on a non-empty series, that call raises at line 171, before line 180, and takes none; `Dispatch.CompletesAsWritten` states which calls get that far.
- `Dispatch.OptimizerStepsPerCall`: gives the OmniAnomaly training call the corrected one step per window. As written, on a non-empty series, that call raises at line 171, before line 178, and takes none.
- `Batching.BatchedScores`: assumes that a window's score depends only on that window. In the code, `model(window, elem)` (line 352) runs on the whole mini-batch, so this assumption is not checked here.
- `Driver.ResumeMatchesUninterrupted`: assumes deterministic numerics. The checkpoint of lines 67-76 holds no random-number-generator state, so networks that draw random numbers while training (dropout, say) can make a resumed run differ from an uninterrupted one; the networks are not part of this model.
- A mini-batch size of 0 is a configuration error: `DataLoader(batch_size=0)` (line 308) raises `ValueError`. `Dispatch.BatchCount`, `Batching.Chunks` and the `Driver` members require a positive batch size instead of modelling that error.
- `Labels.MeanRows`: does not model NumPy's NaN result for a timestep with no channels; it requires every row to be non-empty.
