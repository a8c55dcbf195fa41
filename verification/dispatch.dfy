/**
 * Family selection inside `backprop` (main.py lines 102-371) and what each
 * branch does to the optimizer and the learning-rate scheduler in one call.
 *
 * The model name is tested against a fixed chain of conditions: substring tests
 * for "DAGMM", "Attention", "OmniAnomaly" and "USAD", exact membership in the
 * graph-model list, a substring test for "GAN", one for "TranAD", and a final
 * default branch. The first condition that holds picks the branch.
 */
module Dispatch {
  import opened Common
  import opened Text

  datatype Family = DAGMM | Attention | OmniAnomaly | USAD | Graph | GAN | TranAD | Default

  /** `model.name in ["GDN", "MTAD_GAT", "MSCRED", "CAE_M"]` (line 225). */
  const GraphNames: seq<string> := ["GDN", "MTAD_GAT", "MSCRED", "CAE_M"]

  /** The condition guarding each branch; the final `else` accepts every name. */
  predicate Claims(f: Family, name: string)
  {
    match f
    case DAGMM => Contains(name, "DAGMM")
    case Attention => Contains(name, "Attention")
    case OmniAnomaly => Contains(name, "OmniAnomaly")
    case USAD => Contains(name, "USAD")
    case Graph => name in GraphNames
    case GAN => Contains(name, "GAN")
    case TranAD => Contains(name, "TranAD")
    case Default => true
  }

  /** Position of each branch in the chain of conditions. */
  function Rank(f: Family): nat
  {
    match f
    case DAGMM => 0
    case Attention => 1
    case OmniAnomaly => 2
    case USAD => 3
    case Graph => 4
    case GAN => 5
    case TranAD => 6
    case Default => 7
  }

  /**
   * The branch `backprop` takes for a model name: its own condition holds and no
   * earlier condition does.
   */
  function FamilyOf(name: string): (f: Family)
    ensures Claims(f, name)
    ensures forall g: Family :: Rank(g) < Rank(f) ==> !Claims(g, name)
  {
    if Contains(name, "DAGMM") then DAGMM
    else if Contains(name, "Attention") then Attention
    else if Contains(name, "OmniAnomaly") then OmniAnomaly
    else if Contains(name, "USAD") then USAD
    else if name in GraphNames then Graph
    else if Contains(name, "GAN") then GAN
    else if Contains(name, "TranAD") then TranAD
    else Default
  }

  /** The first-match description determines the branch: at most one family fits it. */
  lemma FirstMatchIsFamilyOf(name: string, f: Family)
    requires Claims(f, name)
    requires forall g: Family :: Rank(g) < Rank(f) ==> !Claims(g, name)
    ensures FamilyOf(name) == f
  {
  }

  /** Names mentioning "GAN" that no earlier test catches, such as "MAD_GAN", reach the GAN branch. */
  lemma MadGanIsGan()
    ensures FamilyOf("MAD_GAN") == GAN
  {
    assert Contains("MAD_GAN", "GAN") by {
      assert OccursAt("MAD_GAN", "GAN", 4);
      ContainsIff("MAD_GAN", "GAN");
    }
    assert !Contains("MAD_GAN", "DAGMM") by {
      assert "MAD_GAN"[..5][0] != "DAGMM"[0];
      assert "MAD_GAN"[1..] == "AD_GAN";
      assert "AD_GAN"[..5][0] != "DAGMM"[0];
      assert "AD_GAN"[1..] == "D_GAN";
      assert "D_GAN"[..5][1] != "DAGMM"[1];
      assert "D_GAN"[1..] == "_GAN";
    }
    assert !Contains("MAD_GAN", "Attention");
    assert !Contains("MAD_GAN", "OmniAnomaly");
    assert !Contains("MAD_GAN", "USAD") by {
      assert "MAD_GAN"[..4][0] != "USAD"[0];
      assert "MAD_GAN"[1..] == "AD_GAN";
      assert "AD_GAN"[..4][0] != "USAD"[0];
      assert "AD_GAN"[1..] == "D_GAN";
      assert "D_GAN"[..4][0] != "USAD"[0];
      assert "D_GAN"[1..] == "_GAN";
      assert "_GAN"[..4][0] != "USAD"[0];
      assert "_GAN"[1..] == "GAN";
    }
  }

  /**
   * `scheduler.step()` calls in one `backprop` call. Training calls of the DAGMM,
   * Attention, OmniAnomaly, USAD, TranAD and default branches step it once
   * (lines 123, 154, 180, 206, 342, 368); the graph and GAN branches and every
   * inference call never do.
   */
  function SchedulerStepsPerCall(f: Family, training: bool): (k: nat)
    ensures k <= 1
    ensures k == 1 <==> training && f != Graph && f != GAN
  {
    if !training then 0
    else match f
      case DAGMM => 1
      case Attention => 1
      case OmniAnomaly => 1
      case USAD => 1
      case Graph => 0
      case GAN => 0
      case TranAD => 1
      case Default => 1
  }

  /** Mini-batches `DataLoader(dataset, batch_size=b)` yields for `n` windows (the last may be short). */
  function BatchCount(n: nat, b: nat): (c: nat)
    requires b > 0
    ensures c * b >= n
    ensures c > 0 ==> (c - 1) * b < n
    decreases n
  {
    if n == 0 then 0 else if n <= b then 1 else 1 + BatchCount(n - b, b)
  }

  /**
   * `optimizer.step()` calls in one training call over `n` windows: one per
   * window, two per window for GAN (discriminator then generator, lines 277 and
   * 285), one per mini-batch for TranAD (line 330), one for the default branch
   * (line 367).
   */
  function OptimizerStepsPerCall(f: Family, n: nat, b: nat): (k: nat)
    requires b > 0
    ensures f in {DAGMM, Attention, OmniAnomaly, USAD, Graph} ==> k == n
    ensures f == GAN ==> k == 2 * n
    ensures f == TranAD ==> k * b >= n && (k > 0 ==> (k - 1) * b < n)
    ensures f == Default ==> k == 1
    ensures n > 0 ==> k > 0
  {
    match f
    case GAN => 2 * n
    case TranAD => BatchCount(n, b)
    case Default => 1
    case _ => n
  }

  // ---- The loss name `l` read by each branch ----

  /** Element-wise mean squared error with `reduction="mean"` or `reduction="none"`. */
  datatype Reduction = Mean | NoReduction

  /** Branches whose code reads the local name `l` (lines 116, 147, 171, 188, 198, 236, 253, 301). */
  predicate ReadsL(f: Family)
  {
    f in {DAGMM, Attention, OmniAnomaly, USAD, Graph, GAN}
  }

  /**
   * The binding of `l` when the branch reads it, as written: DAGMM, Attention,
   * USAD, graph and GAN bind `l = nn.MSELoss(reduction="none")` first (lines 107,
   * 138, 191, 226, 257); nothing binds it on the OmniAnomaly path, and the
   * function-wide loss is named `loss_fn` (line 105). No branch's own binding
   * depends on `training`; the parameter keeps the signature of `LossBinding`,
   * where the corrected OmniAnomaly binding does.
   */
  function LossBindingAsWritten(f: Family, training: bool): Option<Reduction>
  {
    match f
    case OmniAnomaly => None
    case TranAD => None
    case Default => None
    case _ => Some(NoReduction)
  }

  /** The OmniAnomaly branch reads `l` with nothing bound to it: Python raises `UnboundLocalError`. */
  lemma OmniAnomalyReadsUnboundLoss(training: bool)
    ensures ReadsL(OmniAnomaly) && LossBindingAsWritten(OmniAnomaly, training) == None
  {
  }

  /**
   * The binding with the OmniAnomaly branch reading the function-wide loss of
   * line 105 (mean while training, element-wise otherwise), as the other
   * branches' own `l` suggests was meant.
   */
  function LossBinding(f: Family, training: bool): (r: Option<Reduction>)
    ensures ReadsL(f) ==> r.Some?
    ensures f != OmniAnomaly ==> r == LossBindingAsWritten(f, training)
  {
    match f
    case OmniAnomaly => Some(if training then Mean else NoReduction)
    case _ => LossBindingAsWritten(f, training)
  }

  /**
   * Whether a call of branch `f` gets past its reads of `l` as written. The
   * OmniAnomaly branch is the only one that reads an unbound name: it raises
   * at its first read of `l`, line 171 in a training call and line 188 in an
   * inference call. On a non-empty series a training call reaches line 171
   * before its `optimizer.step()` (line 178) and `scheduler.step()` (line 180),
   * so as written it takes no steps at all, and `SchedulerStepsPerCall`, `OptimizerStepsPerCall` give its counts once
   * `LossBinding` is in place.
   */
  function CompletesAsWritten(f: Family, training: bool): (ok: bool)
    ensures ok <==> !(ReadsL(f) && LossBindingAsWritten(f, training).None?)
    ensures ok <==> LossBindingAsWritten(f, training) == LossBinding(f, training)
  {
    f != OmniAnomaly
  }
}
