/**
 * Sliding-window construction (`convert_to_windows`, main.py lines 23-34).
 *
 * A series is a sequence of `T` feature rows. Timestep `i` gets a window of `w`
 * rows: the `w` rows before it when `i >= w`, otherwise the first row repeated
 * `w - i` times followed by rows `0 .. i-1`. Families whose name mentions
 * "TranAD" or "Attention" keep the window as rows; every other family gets the
 * window flattened row-major into `w * f` values.
 */
module Windows {
  import opened Common
  import opened Text
  import opened Seqs

  datatype WindowError = EmptySeries  // `torch.stack([])` raises

  /** One stacked window: kept as `w` rows, or flattened by `w.view(-1)`. */
  datatype Window<T> = Rows(rows: seq<seq<T>>) | Flat(values: seq<T>)

  /** `"TranAD" in args.model or "Attention" in args.model` (line 32). */
  predicate KeepsRows(modelName: string)
    ensures KeepsRows(modelName) <==>
              (exists i :: OccursAt(modelName, "TranAD", i)) || (exists i :: OccursAt(modelName, "Attention", i))
  {
    ContainsIff(modelName, "TranAD");
    ContainsIff(modelName, "Attention");
    Contains(modelName, "TranAD") || Contains(modelName, "Attention")
  }

  /** The series index that row `j` of window `i` is copied from. */
  function SourceRow(w: nat, i: nat, j: nat): (k: nat)
    requires j < w
    ensures i >= w ==> k == i - w + j
    ensures k <= i && (i > 0 ==> k < i)
    ensures i < w ==> (j < w - i ==> k == 0) && (j >= w - i ==> k == j - (w - i))
  {
    if i + j < w then 0 else i + j - w
  }

  /** The window of timestep `i` (lines 27-30). */
  function WindowAt<T>(data: seq<T>, w: nat, i: nat): (r: seq<T>)
    requires i < |data|
    ensures |r| == w
    ensures forall j :: 0 <= j < w ==> SourceRow(w, i, j) < |data| && r[j] == data[SourceRow(w, i, j)]
  {
    if i >= w then data[i - w..i] else seq(w - i, _ => data[0]) + data[..i]
  }

  /** How a window enters the stacked batch (line 32). */
  function Shape<T>(keepRows: bool, rows: seq<seq<T>>): Window<T>
  {
    if keepRows then Rows(rows) else Flat(Flatten(rows))
  }

  /**
   * `convert_to_windows(data, model)`: one window per timestep, appended in order.
   * An empty series is an error, as stacking no windows is.
   */
  method ConvertToWindows<T>(data: seq<seq<T>>, w: nat, modelName: string)
    returns (r: Result<seq<Window<T>>, WindowError>)
    ensures r.Err? <==> data == []
    ensures r.Ok? ==> |r.value| == |data|
    ensures r.Ok? ==> forall i :: 0 <= i < |data| ==>
              r.value[i] == Shape(KeepsRows(modelName), WindowAt(data, w, i))
  {
    var windows: seq<Window<T>> := [];
    for i := 0 to |data|
      invariant |windows| == i
      invariant forall k :: 0 <= k < i ==> windows[k] == Shape(KeepsRows(modelName), WindowAt(data, w, k))
    {
      var win: seq<seq<T>>;
      if i >= w {
        win := data[i - w..i];
      } else {
        win := seq(w - i, _ => data[0]) + data[..i];
      }
      windows := windows + [if KeepsRows(modelName) then Rows(win) else Flat(Flatten(win))];
    }
    if windows == [] {
      r := Err(EmptySeries);
    } else {
      r := Ok(windows);
    }
  }

  /** The two earliest windows are both `w` copies of the first row. */
  lemma EarliestWindowsArePadding<T>(data: seq<T>, w: nat, i: nat)
    requires i < |data| && i <= 1
    ensures WindowAt(data, w, i) == seq(w, _ => data[0])
  {
  }

  /** Windows cut from a `T x f` series are `w x f` matrices. */
  lemma WindowIsRectangular<T>(data: seq<seq<T>>, f: nat, w: nat, i: nat)
    requires Rectangular(data, f) && i < |data|
    ensures Rectangular(WindowAt(data, w, i), f)
  {
  }

  /** The flat windows of a series (line 32 for the flattening families). */
  function FlatWindows<T>(data: seq<seq<T>>, w: nat): (r: seq<seq<T>>)
    ensures |r| == |data|
    ensures forall i :: 0 <= i < |data| ==> Flat(r[i]) == Shape(false, WindowAt(data, w, i))
  {
    seq(|data|, i requires 0 <= i < |data| => Flatten(WindowAt(data, w, i)))
  }

  /**
   * A flat window has `w * f` values, and value `j * f + k` is column `k` of the
   * series row that window row `j` is copied from.
   */
  lemma {:induction false} FlatWindowEntry<T>(data: seq<seq<T>>, f: nat, w: nat, i: nat, j: nat, k: nat)
    requires Rectangular(data, f) && i < |data|
    requires j < w && k < f
    ensures |FlatWindows(data, w)[i]| == w * f
    ensures j * f + k < w * f
    ensures FlatWindows(data, w)[i][j * f + k] == data[SourceRow(w, i, j)][k]
  {
    var rows := WindowAt(data, w, i);
    var idx := j * f + k;
    assert FlatWindows(data, w)[i] == Flatten(rows);
    WindowIsRectangular(data, f, w, i);
    FlattenLength(rows, f);
    FlattenIndex(rows, f, j, k);
    assert Flatten(rows)[idx] == rows[j][k];
  }

  /** `x[:, x.shape[1] - feats : x.shape[1]]`: the last `f` values of a flat window. */
  function LastColumns<T>(v: seq<T>, f: nat): (r: seq<T>)
    requires f <= |v|
    ensures |r| == f
    ensures forall k :: 0 <= k < f ==> r[k] == v[|v| - f + k]
  {
    v[|v| - f..]
  }

  /**
   * The last `f` values of flat window `i` are the window's last row: the series
   * row `i - 1`, or row 0 for the first window.
   */
  lemma {:induction false} FlatWindowLastColumns<T>(data: seq<seq<T>>, f: nat, w: nat, i: nat)
    requires Rectangular(data, f) && i < |data| && w >= 1
    ensures f <= |FlatWindows(data, w)[i]|
    ensures LastColumns(FlatWindows(data, w)[i], f) == data[if i == 0 then 0 else i - 1]
  {
    var rows := WindowAt(data, w, i);
    assert rows == rows[..w - 1] + [rows[w - 1]];
    FlattenAppend(rows[..w - 1], [rows[w - 1]]);
    assert Flatten([rows[w - 1]]) == rows[w - 1] + Flatten([]);
    assert SourceRow(w, i, w - 1) == if i == 0 then 0 else i - 1;
    assert |rows[w - 1]| == f;
  }

  /**
   * Reported columns of the whole flat batch (`.view(-1, feats)` after the slice at
   * lines 132-135, 221-223, 252-254 and 300-302).
   */
  function ReportedRows<T>(batch: seq<seq<T>>, f: nat): (r: seq<seq<T>>)
    requires forall t :: 0 <= t < |batch| ==> f <= |batch[t]|
    ensures |r| == |batch| && Rectangular(r, f)
    ensures forall t, k :: 0 <= t < |batch| && 0 <= k < f ==> r[t][k] == batch[t][|batch[t]| - f + k]
  {
    seq(|batch|, t requires 0 <= t < |batch| => LastColumns(batch[t], f))
  }

  /**
   * The target side of the reported error for timestep `t` is series row `t - 1`
   * (row 0 for `t = 0`): the reported rows are the series delayed by one step.
   */
  lemma ReportedRowsLagByOne<T>(data: seq<seq<T>>, f: nat, w: nat)
    requires Rectangular(data, f) && |data| >= 1 && w >= 1
    ensures forall t :: 0 <= t < |data| ==> f <= |FlatWindows(data, w)[t]|
    ensures ReportedRows(FlatWindows(data, w), f) == [data[0]] + data[..|data| - 1]
  {
    forall t | 0 <= t < |data|
      ensures f <= |FlatWindows(data, w)[t]|
      ensures LastColumns(FlatWindows(data, w)[t], f) == data[if t == 0 then 0 else t - 1]
    {
      FlatWindowLastColumns(data, f, w, t);
    }
  }
}
