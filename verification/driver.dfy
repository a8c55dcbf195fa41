/**
 * The epoch driver and its checkpoint (main.py `save_model` lines 63-76,
 * `load_model` lines 79-99, the training loop at lines 414-419, and the
 * optimizer/scheduler bookkeeping of one `backprop` training call).
 *
 * The networks, losses and parameter updates are one opaque function `train`
 * from (epoch index, parameters, optimizer steps, scheduler steps) to (epoch
 * record, new parameters). `P` stands for the network weights together with
 * the optimizer's moment buffers, which `save_model` stores and `load_model`
 * restores with them (lines 70-71, 90-91); the scheduler's state is its step
 * count, from which its learning rate follows. The model keeps exact count of
 * `optimizer.step()` and `scheduler.step()` calls. `train` is a function, so
 * the numerics are taken to be deterministic: the checkpoint holds no
 * random-number-generator state.
 */
module Driver {
  import opened Common
  import opened Dispatch
  import opened Batching

  /**
   * What a checkpoint holds besides the epoch index: model parameters, the
   * optimizer's steps, the scheduler's steps and `accuracy_list`.
   */
  datatype Session<P, R> = Session(params: P, optimizerSteps: nat, schedulerSteps: nat, history: seq<R>)

  /** The bundle `save_model` writes: `epoch` plus the state at that epoch. */
  datatype Checkpoint<P, R> = Checkpoint(epoch: int, state: Session<P, R>)

  /**
   * The fixed ingredients of a run: the family, the training windows,
   * `model.batch` and the numerics of one training call.
   */
  datatype Config<W, !P, R> = Config(family: Family, data: seq<W>, batch: nat, train: (int, P, nat, nat) -> (R, P))

  /**
   * `load_model`: the checkpoint is restored when it exists and the run is not a
   * forced retrain (or is test-only); otherwise the run starts at epoch -1 with
   * fresh parameters, no steps and an empty history.
   */
  function LoadModel<P, R>(file: Option<Checkpoint<P, R>>, retrain: bool, test: bool, init: P): (start: Checkpoint<P, R>)
    ensures file.Some? && (!retrain || test) ==> start == file.value
    ensures file.None? || (retrain && !test) ==> start == Checkpoint(-1, Session(init, 0, 0, []))
  {
    if file.Some? && (!retrain || test) then file.value
    else Checkpoint(-1, Session(init, 0, 0, []))
  }

  /** The record the numerics produce for epoch `e` from state `s`. */
  function RecordOf<W, P, R>(c: Config<W, P, R>, e: int, s: Session<P, R>): R
  {
    c.train(e, s.params, s.optimizerSteps, s.schedulerSteps).0
  }

  /**
   * One training epoch with index `e`: one `backprop` training call followed by
   * `accuracy_list.append` (lines 415-418).
   */
  function EpochStep<W, P, R>(c: Config<W, P, R>, e: int, s: Session<P, R>): (t: Session<P, R>)
    requires c.batch > 0
    ensures t.schedulerSteps == s.schedulerSteps + (if c.family == Graph || c.family == GAN then 0 else 1)
    ensures |c.data| > 0 ==> t.optimizerSteps > s.optimizerSteps
    ensures t.history == s.history + [RecordOf(c, e, s)]
  {
    var out := c.train(e, s.params, s.optimizerSteps, s.schedulerSteps);
    var rec, p := out.0, out.1;
    Session(p,
            s.optimizerSteps + OptimizerStepsPerCall(c.family, |c.data|, c.batch),
            s.schedulerSteps + SchedulerStepsPerCall(c.family, true),
            s.history + [rec])
  }

  /** Epochs `first, first + 1, ..., first + n - 1`, in order. */
  function Epochs<W, P, R>(c: Config<W, P, R>, first: int, n: nat, s: Session<P, R>): (t: Session<P, R>)
    requires c.batch > 0
    ensures |t.history| == |s.history| + n
    decreases n
  {
    if n == 0 then s else EpochStep(c, first + n - 1, Epochs(c, first, n - 1, s))
  }

  /** Running `n` epochs appends exactly `n` records and keeps the old ones. */
  lemma {:induction false} EpochsAppendOnly<W, P, R>(c: Config<W, P, R>, first: int, n: nat, s: Session<P, R>)
    requires c.batch > 0
    ensures |Epochs(c, first, n, s).history| == |s.history| + n
    ensures Epochs(c, first, n, s).history[..|s.history|] == s.history
  {
    if n > 0 {
      EpochsAppendOnly(c, first, n - 1, s);
      var t := Epochs(c, first, n - 1, s);
      var u := EpochStep(c, first + n - 1, t);
      assert u.history[..|s.history|] == u.history[..|t.history|][..|s.history|];
    }
  }

  /** Running `n` epochs advances the optimizer and the scheduler by `n` times their per-call steps. */
  lemma {:induction false} EpochsSteps<W, P, R>(c: Config<W, P, R>, first: int, n: nat, s: Session<P, R>)
    requires c.batch > 0
    ensures Epochs(c, first, n, s).schedulerSteps == s.schedulerSteps + n * SchedulerStepsPerCall(c.family, true)
    ensures Epochs(c, first, n, s).optimizerSteps
            == s.optimizerSteps + n * OptimizerStepsPerCall(c.family, |c.data|, c.batch)
  {
    if n > 0 {
      EpochsSteps(c, first, n - 1, s);
      var k := SchedulerStepsPerCall(c.family, true);
      var m := OptimizerStepsPerCall(c.family, |c.data|, c.batch);
      assert (n - 1) * k + k == n * k;
      assert (n - 1) * m + m == n * m;
    }
  }

  /** Record `k` appended by a run is the record of epoch `first + k`, computed from the parameters after `k` epochs. */
  lemma {:induction false} EpochsRecord<W, P, R>(c: Config<W, P, R>, first: int, n: nat, s: Session<P, R>, k: nat)
    requires c.batch > 0 && k < n
    ensures |s.history| + k < |Epochs(c, first, n, s).history|
    ensures Epochs(c, first, n, s).history[|s.history| + k]
            == RecordOf(c, first + k, Epochs(c, first, k, s))
  {
    var t := Epochs(c, first, n - 1, s);
    assert Epochs(c, first, n, s).history == t.history + [RecordOf(c, first + n - 1, t)];
    if k < n - 1 {
      EpochsRecord(c, first, n - 1, s, k);
    }
  }

  /** Running `a` epochs and then `b` more is running `a + b` epochs. */
  lemma {:induction false} EpochsCompose<W, P, R>(c: Config<W, P, R>, first: int, a: nat, b: nat, s: Session<P, R>)
    requires c.batch > 0
    ensures Epochs(c, first + a, b, Epochs(c, first, a, s)) == Epochs(c, first, a + b, s)
  {
    if b > 0 {
      EpochsCompose(c, first, a, b - 1, s);
    }
  }

  /** The graph and GAN families never step the scheduler, so their learning rate never decays. */
  lemma SchedulerIdleForGraphAndGan<W, P, R>(c: Config<W, P, R>, first: int, n: nat, s: Session<P, R>)
    requires c.batch > 0 && (c.family == Graph || c.family == GAN)
    ensures Epochs(c, first, n, s).schedulerSteps == s.schedulerSteps
  {
  }

  /**
   * Resuming is transparent: a fresh run of `a` epochs saves a checkpoint;
   * loading it (no forced retrain) and running `b` more epochs gives the same
   * parameters, step counts and history as an uninterrupted run of `a + b` epochs.
   */
  lemma ResumeMatchesUninterrupted<W, P, R>(c: Config<W, P, R>, init: P, a: nat, b: nat, test: bool)
    requires c.batch > 0
    ensures var initial := LoadModel<P, R>(None, false, test, init);
            var saved := Checkpoint(initial.epoch + a, Epochs(c, initial.epoch + 1, a, initial.state));
            var resumed := LoadModel(Some(saved), false, test, init);
            Epochs(c, resumed.epoch + 1, b, resumed.state) == Epochs(c, initial.epoch + 1, a + b, initial.state)
  {
    var initial := LoadModel<P, R>(None, false, test, init);
    EpochsCompose(c, initial.epoch + 1, a, b, initial.state);
  }

  /** The running state of one training run of `main.py`. */
  class Trainer<W, P, R> {
    const config: Config<W, P, R>
    var epoch: int
    var params: P
    var optimizerSteps: nat
    var schedulerSteps: nat
    var accuracyList: seq<R>
    /** The checkpoint file `checkpoints/<model>_<dataset>/model.ckpt`, if any. */
    var checkpoint: Option<Checkpoint<P, R>>

    function State(): Session<P, R>
      reads this
    {
      Session(params, optimizerSteps, schedulerSteps, accuracyList)
    }

    /** `load_model`, with the checkpoint file's content passed in. */
    constructor (config: Config<W, P, R>, file: Option<Checkpoint<P, R>>, retrain: bool, test: bool, init: P)
      ensures this.config == config && checkpoint == file
      ensures Checkpoint(epoch, State()) == LoadModel(file, retrain, test, init)
    {
      var start := LoadModel(file, retrain, test, init);
      this.config := config;
      epoch := start.epoch;
      params := start.state.params;
      optimizerSteps := start.state.optimizerSteps;
      schedulerSteps := start.state.schedulerSteps;
      accuracyList := start.state.history;
      checkpoint := file;
    }

    /**
     * One `backprop(e, ..., training=True)` call: the per-window (per mini-batch
     * for TranAD, whole-series for the default family) optimizer steps, then the
     * scheduler step of the branches that take one.
     */
    method TrainCall(e: int) returns (rec: R)
      requires config.batch > 0
      modifies this
      ensures (rec, params) == config.train(e, old(params), old(optimizerSteps), old(schedulerSteps))
      ensures optimizerSteps == old(optimizerSteps) + OptimizerStepsPerCall(config.family, |config.data|, config.batch)
      ensures schedulerSteps == old(schedulerSteps) + SchedulerStepsPerCall(config.family, true)
      ensures epoch == old(epoch) && accuracyList == old(accuracyList) && checkpoint == old(checkpoint)
    {
      var out := config.train(e, params, optimizerSteps, schedulerSteps);
      rec, params := out.0, out.1;
      match config.family {
        case GAN =>
          for i := 0 to |config.data|
            invariant optimizerSteps == old(optimizerSteps) + 2 * i
            modifies this`optimizerSteps
          {
            optimizerSteps := optimizerSteps + 1;  // discriminator update
            optimizerSteps := optimizerSteps + 1;  // generator update
          }
        case Graph =>
          // The same per-window loop as the DAGMM, Attention, OmniAnomaly and USAD
          // branches below, kept apart because the graph branch never steps the
          // scheduler (lines 228-242).
          for i := 0 to |config.data|
            invariant optimizerSteps == old(optimizerSteps) + i
            modifies this`optimizerSteps
          {
            optimizerSteps := optimizerSteps + 1;
          }
        case TranAD =>
          var batches := Chunks(config.data, config.batch);
          for k := 0 to |batches|
            invariant optimizerSteps == old(optimizerSteps) + k
            modifies this`optimizerSteps
          {
            optimizerSteps := optimizerSteps + 1;
          }
          schedulerSteps := schedulerSteps + 1;
        case Default =>
          optimizerSteps := optimizerSteps + 1;
          schedulerSteps := schedulerSteps + 1;
        case _ =>
          for i := 0 to |config.data|
            invariant optimizerSteps == old(optimizerSteps) + i
            modifies this`optimizerSteps
          {
            optimizerSteps := optimizerSteps + 1;
          }
          schedulerSteps := schedulerSteps + 1;
      }
    }

    /**
     * The training loop (lines 414-419): epochs `epoch + 1 .. epoch + epochs`,
     * each appending its record and overwriting the checkpoint with that epoch's
     * index and the state so far. So once epoch `e` has finished, the checkpoint
     * is `(e, Epochs(config, epoch + 1, e - epoch, initial state))` (the loop's
     * third invariant): a run stopped during epoch `e + 1` keeps that checkpoint,
     * from which `ResumeMatchesUninterrupted` resumes.
     */
    method TrainEpochs(epochs: nat)
      requires config.batch > 0
      modifies this
      ensures epoch == old(epoch)
      ensures State() == Epochs(config, epoch + 1, epochs, old(State()))
      ensures checkpoint == if epochs == 0 then old(checkpoint) else Some(Checkpoint(epoch + epochs, State()))
    {
      var first := epoch + 1;
      ghost var initial, saved := State(), checkpoint;
      for e := first to first + epochs
        invariant epoch == first - 1
        invariant State() == Epochs(config, first, e - first, initial)
        invariant checkpoint == if e == first then saved else Some(Checkpoint(e - 1, State()))
      {
        ghost var before := State();
        var rec := TrainCall(e);
        accuracyList := accuracyList + [rec];
        assert State() == EpochStep(config, e, before);
        checkpoint := Some(Checkpoint(e, State()));
      }
    }
  }
}
