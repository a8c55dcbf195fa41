/** Row-major flattening of nested sequences (`view(-1)`, `np.concatenate`). */
module Seqs {

  /** Concatenation of the rows in order. */
  function Flatten<T>(rows: seq<seq<T>>): seq<T>
  {
    if rows == [] then [] else rows[0] + Flatten(rows[1..])
  }

  /** Every row has `f` entries (a `len(rows) x f` matrix). */
  predicate Rectangular<T>(rows: seq<seq<T>>, f: nat)
  {
    forall i :: 0 <= i < |rows| ==> |rows[i]| == f
  }

  lemma {:induction false} FlattenAppend<T>(a: seq<seq<T>>, b: seq<seq<T>>)
    ensures Flatten(a + b) == Flatten(a) + Flatten(b)
  {
    if a != [] {
      assert (a + b)[1..] == a[1..] + b;
      FlattenAppend(a[1..], b);
    } else {
      assert a + b == b;
    }
  }

  /** Flattening a `n x f` matrix gives `n * f` entries. */
  lemma {:induction false} FlattenLength<T>(rows: seq<seq<T>>, f: nat)
    requires Rectangular(rows, f)
    ensures |Flatten(rows)| == |rows| * f
  {
    if rows != [] {
        FlattenLength(rows[1..], f);
    }
  }

  /** Entry `j * f + k` of the flattened matrix is row `j`, column `k`. */
  lemma {:induction false} FlattenIndex<T>(rows: seq<seq<T>>, f: nat, j: nat, k: nat)
    requires Rectangular(rows, f)
    requires j < |rows| && k < f
    ensures j * f + k < |Flatten(rows)|
    ensures Flatten(rows)[j * f + k] == rows[j][k]
  {
    FlattenLength(rows[1..], f);
    if j > 0 {
      FlattenIndex(rows[1..], f, j - 1, k);
      assert j * f + k == f + ((j - 1) * f + k);
    }
  }
}
