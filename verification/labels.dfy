/**
 * Reduction of per-channel results to one value per timestep (main.py line 462
 * for scores, line 463 for labels). Before line 462 the scores are reshaped to a
 * single column (line 455), so the mean there keeps every score as it is.
 */
module Labels {
  import opened Seqs

  function Sum(row: seq<int>): int
  {
    if row == [] then 0 else row[0] + Sum(row[1..])
  }

  /** `(np.sum(labels, axis=1) >= 1) + 0` for one timestep. */
  function AggregateLabel(row: seq<int>): (r: int)
    ensures r == 0 || r == 1
  {
    if Sum(row) >= 1 then 1 else 0
  }

  /** With non-negative channel labels, the sum reaches 1 exactly when some channel does. */
  lemma {:induction false} SumReachesOne(row: seq<int>)
    requires forall c :: 0 <= c < |row| ==> row[c] >= 0
    ensures Sum(row) >= 1 <==> exists c :: 0 <= c < |row| && row[c] >= 1
  {
    if row != [] {
      SumReachesOne(row[1..]);
      assert forall c :: 0 <= c < |row[1..]| ==> row[1..][c] == row[c + 1];
      if exists c :: 0 <= c < |row[1..]| && row[1..][c] >= 1 {
        var c :| 0 <= c < |row[1..]| && row[1..][c] >= 1;
        assert row[c + 1] >= 1;
      }
      if exists c :: 0 <= c < |row| && row[c] >= 1 {
        var c :| 0 <= c < |row| && row[c] >= 1;
        if c > 0 {
          assert row[1..][c - 1] >= 1;
        }
      }
      SumNonNegative(row[1..]);
    }
  }

  lemma {:induction false} SumNonNegative(row: seq<int>)
    requires forall c :: 0 <= c < |row| ==> row[c] >= 0
    ensures Sum(row) >= 0
  {
    if row != [] {
      SumNonNegative(row[1..]);
    }
  }

  /**
   * For 0/1 channel labels the timestep label is their logical OR: 1 exactly
   * when some channel is 1.
   */
  lemma AggregateLabelIsOr(row: seq<int>)
    requires forall c :: 0 <= c < |row| ==> row[c] == 0 || row[c] == 1
    ensures AggregateLabel(row) == 1 <==> exists c :: 0 <= c < |row| && row[c] == 1
  {
    SumReachesOne(row);
  }

  /** One label per timestep (line 463). */
  function AggregateLabels(labels: seq<seq<int>>): (r: seq<int>)
    ensures |r| == |labels|
    ensures forall t :: 0 <= t < |labels| ==> r[t] == AggregateLabel(labels[t])
  {
    seq(|labels|, t requires 0 <= t < |labels| => AggregateLabel(labels[t]))
  }

  function SumReal(row: seq<real>): real
  {
    if row == [] then 0.0 else row[0] + SumReal(row[1..])
  }

  /** `np.mean(scores, axis=1)` (line 462): the mean over the channels of each timestep. */
  function MeanRows(scores: seq<seq<real>>): (r: seq<real>)
    requires forall t :: 0 <= t < |scores| ==> |scores[t]| > 0
    ensures |r| == |scores|
  {
    seq(|scores|, t requires 0 <= t < |scores| => SumReal(scores[t]) / (|scores[t]| as real))
  }

  /**
   * `scores.reshape(-1, 1)` (line 455): the scores in row-major order, one per
   * row of a single column.
   */
  function AsColumn(scores: seq<seq<real>>): (r: seq<seq<real>>)
    ensures |r| == |Flatten(scores)|
    ensures forall t :: 0 <= t < |r| ==> r[t] == [Flatten(scores)[t]]
  {
    var v := Flatten(scores);
    seq(|v|, t requires 0 <= t < |v| => [v[t]])
  }

  /**
   * What line 462 yields from a `T x F` score matrix: after the reshape of line
   * 455 the mean is taken over one column, so it returns all `T * F` scores in
   * row-major order rather than one mean per timestep.
   */
  lemma ReshapedMeanIsFlatten(scores: seq<seq<real>>, f: nat)
    requires Rectangular(scores, f)
    ensures |MeanRows(AsColumn(scores))| == |scores| * f
    ensures MeanRows(AsColumn(scores)) == Flatten(scores)
  {
    FlattenLength(scores, f);
    MeanOfSingleChannel(AsColumn(scores));
  }

  /** A score matrix with a single channel is returned unchanged by the mean. */
  lemma MeanOfSingleChannel(scores: seq<seq<real>>)
    requires forall t :: 0 <= t < |scores| ==> |scores[t]| == 1
    ensures MeanRows(scores) == seq(|scores|, t requires 0 <= t < |scores| => scores[t][0])
  {
    forall t | 0 <= t < |scores|
      ensures MeanRows(scores)[t] == scores[t][0]
    {
      assert SumReal(scores[t]) == scores[t][0] + SumReal(scores[t][1..]);
      assert scores[t][1..] == [];
    }
  }
}
