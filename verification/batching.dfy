/**
 * Mini-batching of the TranAD family (main.py lines 306-308 and 347-358): the
 * windows are cut into consecutive mini-batches of `model.batch` windows, the
 * last one possibly shorter, and the per-window scores of every mini-batch are
 * concatenated in order.
 */
module Batching {
  import opened Seqs
  import opened Dispatch

  /** The mini-batches `DataLoader(dataset, batch_size=b)` yields, in order. */
  function Chunks<T>(s: seq<T>, b: nat): (r: seq<seq<T>>)
    requires b > 0
    ensures Flatten(r) == s
    ensures |r| == BatchCount(|s|, b)
    ensures forall k :: 0 <= k < |r| ==> 0 < |r[k]| <= b
    ensures forall k :: 0 <= k < |r| - 1 ==> |r[k]| == b
    decreases |s|
  {
    if s == [] then []
    else if |s| <= b then [s]
    else [s[..b]] + Chunks(s[b..], b)
  }

  /** Applies `score` to every window, keeping the order. */
  function Map<W, S>(score: W -> S, s: seq<W>): (r: seq<S>)
    ensures |r| == |s|
    ensures forall i :: 0 <= i < |s| ==> r[i] == score(s[i])
  {
    seq(|s|, i requires 0 <= i < |s| => score(s[i]))
  }

  /**
   * The TranAD inference pass: for each mini-batch, one score per window
   * (`s.view(-1)`, line 356), and the batches' scores concatenated
   * (`np.concatenate`, line 357). The result has one score per window, in the
   * windows' order, whatever the batch size.
   */
  method BatchedScores<W, S>(windows: seq<W>, batch: nat, score: W -> S) returns (scores: seq<S>)
    requires batch > 0
    ensures |scores| == |windows|
    ensures forall i :: 0 <= i < |windows| ==> scores[i] == score(windows[i])
  {
    var batches := Chunks(windows, batch);
    scores := [];
    for k := 0 to |batches|
      invariant scores == Map(score, Flatten(batches[..k]))
    {
      assert batches[..k + 1] == batches[..k] + [batches[k]];
      FlattenAppend(batches[..k], [batches[k]]);
      assert Flatten([batches[k]]) == batches[k] + Flatten([]);
      scores := scores + Map(score, batches[k]);
    }
    assert batches[..|batches|] == batches;
  }
}
