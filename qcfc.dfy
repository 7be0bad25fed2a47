/**
 * QC-FC, the correlation between each connectivity edge and subject motion: the
 * lower-triangle edge enumeration, the subjects-by-edges matrix filled row by row, the
 * error checks, the degrees of freedom and the clip of the correlation. The regression,
 * the Pearson correlation and the Student-t p-value are abstract functions.
 */
module Qcfc {
  import opened Wrappers

  // ------------------------------------------------------------------
  // Lower-triangle edges

  /** An edge `(i, j)` of the lower triangle, `j < i`. */
  type Edge = (nat, nat)

  /** The edges of row `i`: `(i, 0), …, (i, i - 1)`. */
  function RowEdges(i: nat): (r: seq<Edge>)
    ensures |r| == i && forall j :: 0 <= j < i ==> r[j] == (i, j)
  {
    seq(i, j requires 0 <= j < i => (i, j))
  }

  /** `np.tril_indices(n, k=-1)` as a list of pairs, row by row. */
  function TrilPairs(n: nat): seq<Edge>
    decreases n
  {
    if n == 0 then [] else TrilPairs(n - 1) + RowEdges(n - 1)
  }

  /** There are n(n-1)/2 edges. */
  lemma {:induction false} TrilLength(n: nat)
    ensures 2 * |TrilPairs(n)| == n * (n - 1)
    decreases n
  {
    if n > 0 {
      TrilLength(n - 1);
      assert 2 * |TrilPairs(n)| == (n - 1) * (n - 2) + 2 * (n - 1);
      assert (n - 1) * (n - 2) + 2 * (n - 1) == (n - 1) * n;
    }
  }

  /** Edge `(i, j)` sits at position i(i-1)/2 + j. */
  lemma {:induction false} TrilIndex(n: nat, i: nat, j: nat)
    requires j < i < n
    ensures i * (i - 1) / 2 + j < |TrilPairs(n)|
    ensures TrilPairs(n)[i * (i - 1) / 2 + j] == (i, j)
    decreases n
  {
    TrilLength(i);
    TrilLength(n);
    TrilPrefix(n, i + 1);
    TrilLength(i + 1);
    assert i * (i - 1) == 2 * (i * (i - 1) / 2) by {
      assert i * (i - 1) == 2 * |TrilPairs(i)|;
    }
    assert TrilPairs(i + 1) == TrilPairs(i) + RowEdges(i);
    assert TrilPairs(i + 1)[|TrilPairs(i)| + j] == (i, j);
  }

  /** The edges of a smaller triangle come first. */
  lemma {:induction false} TrilPrefix(n: nat, m: nat)
    requires m <= n
    ensures |TrilPairs(m)| <= |TrilPairs(n)| && TrilPairs(n)[..|TrilPairs(m)|] == TrilPairs(m)
    decreases n
  {
    if m < n {
      TrilPrefix(n - 1, m);
      assert TrilPairs(n) == TrilPairs(n - 1) + RowEdges(n - 1);
      assert TrilPairs(n)[..|TrilPairs(n - 1)|] == TrilPairs(n - 1);
    }
  }

  /** The edges are exactly the pairs `j < i < n`. */
  lemma {:induction false} TrilMembers(n: nat)
    ensures forall e :: e in TrilPairs(n) <==> e.1 < e.0 < n
    decreases n
  {
    if n > 0 {
      TrilMembers(n - 1);
      forall e ensures e in TrilPairs(n) <==> e.1 < e.0 < n {
        if e.1 < e.0 == n - 1 {
          assert RowEdges(n - 1)[e.1] == e;
        }
      }
    }
  }

  /** The edges come in row-major order: by row, then by column, each once. */
  lemma {:induction false} TrilOrdered(n: nat)
    ensures forall a, b :: 0 <= a < b < |TrilPairs(n)| ==>
      TrilPairs(n)[a].0 < TrilPairs(n)[b].0 || (TrilPairs(n)[a].0 == TrilPairs(n)[b].0 && TrilPairs(n)[a].1 < TrilPairs(n)[b].1)
    decreases n
  {
    if n > 0 {
      TrilOrdered(n - 1);
      TrilMembers(n - 1);
      var t := TrilPairs(n);
      var p := TrilPairs(n - 1);
      forall a, b | 0 <= a < b < |t| ensures t[a].0 < t[b].0 || (t[a].0 == t[b].0 && t[a].1 < t[b].1) {
        if b >= |p| && a < |p| {
          assert t[a] == p[a] && p[a] in p;
        } else if a >= |p| {
          assert t[a] == RowEdges(n - 1)[a - |p|] && t[b] == RowEdges(n - 1)[b - |p|];
        } else {
          assert t[a] == p[a] && t[b] == p[b];
        }
      }
    }
  }

  // ------------------------------------------------------------------
  // Connectivity matrices and the edge matrix

  /** A two-dimensional array as `m.load()` gives it. */
  datatype Matrix = Matrix(nrows: nat, ncols: nat, entries: seq<seq<real>>)
  {
    predicate Valid()
    {
      |entries| == nrows && forall i :: 0 <= i < nrows ==> |entries[i]| == ncols
    }
  }

  /** A subject's connectivity matrix and the metadata that carries its motion. */
  datatype ConnMatrix = ConnMatrix(metadata: map<string, real>, arr: Matrix)

  predicate IsSquare(m: Matrix, n: nat)
  {
    m.nrows == n && m.ncols == n
  }

  /** `arr[i_idx, j_idx]`: a square matrix's entries at the lower-triangle edges. */
  function EdgeValues(m: Matrix, n: nat): (r: seq<real>)
    requires m.Valid() && IsSquare(m, n)
    ensures |r| == |TrilPairs(n)|
  {
    TrilMembers(n);
    seq(|TrilPairs(n)|, e requires 0 <= e < |TrilPairs(n)| => m.entries[TrilPairs(n)[e].0][TrilPairs(n)[e].1])
  }

  /**
   * The loop of `calculate_qcfc`: a subjects-by-edges matrix, row `s` holding matrix `s`'s
   * lower-triangle entries; a matrix that is not `n` by `n` stops it with `ok` false.
   */
  method ExtractEdges(matrices: seq<ConnMatrix>, n: nat) returns (ok: bool, x: array2<real>)
    requires forall s :: 0 <= s < |matrices| ==> matrices[s].arr.Valid()
    ensures fresh(x) && x.Length0 == |matrices| && x.Length1 == |TrilPairs(n)|
    ensures ok <==> forall s :: 0 <= s < |matrices| ==> IsSquare(matrices[s].arr, n)
    ensures ok ==> forall s, e :: 0 <= s < |matrices| && 0 <= e < |TrilPairs(n)| ==>
      x[s, e] == EdgeValues(matrices[s].arr, n)[e]
  {
    var pairs := TrilPairs(n);
    TrilMembers(n);
    x := new real[|matrices|, |pairs|];
    var s := 0;
    while s < |matrices|
      invariant 0 <= s <= |matrices|
      invariant forall t :: 0 <= t < s ==> IsSquare(matrices[t].arr, n)
      invariant forall t, e :: 0 <= t < s && 0 <= e < |pairs| ==> x[t, e] == EdgeValues(matrices[t].arr, n)[e]
    {
      var arr := matrices[s].arr;
      if !IsSquare(arr, n) {
        return false, x;
      }
      var e := 0;
      while e < |pairs|
        invariant 0 <= e <= |pairs|
        invariant forall t, f :: 0 <= t < s && 0 <= f < |pairs| ==> x[t, f] == EdgeValues(matrices[t].arr, n)[f]
        invariant forall f :: 0 <= f < e ==> x[s, f] == EdgeValues(arr, n)[f]
      {
        assert pairs[e] in pairs;
        x[s, e] := arr.entries[pairs[e].0][pairs[e].1];
        e := e + 1;
      }
      s := s + 1;
    }
    ok := true;
  }

  // ------------------------------------------------------------------
  // QC-FC

  /** The statistics the model leaves abstract, with the covariate design's shape. */
  datatype Stats = Stats(
    covRows: nat, covColumns: nat,                 // shape of the age + gender design matrix
    correlate: (seq<real>, seq<Float>) -> Float,   // Pearson r of an edge with motion, covariates regressed out
    pValue: (Float, int) -> Float)                 // two-tailed p of r for the degrees of freedom

  /** One output row: the edge and its correlation with motion. */
  datatype QcfcRow = QcfcRow(i: nat, j: nat, correlation: Float, pValue: Float)

  /** The motion of each subject, NaN where its metadata lacks the key. */
  function Motion(matrices: seq<ConnMatrix>, key: string): (r: seq<Float>)
    ensures |r| == |matrices|
    ensures forall s :: 0 <= s < |matrices| ==>
      (r[s].Num? <==> key in matrices[s].metadata) && (r[s].Num? ==> r[s].r == matrices[s].metadata[key])
  {
    seq(|matrices|, s requires 0 <= s < |matrices| =>
      if key in matrices[s].metadata then Num(matrices[s].metadata[key]) else NaN)
  }

  /**
   * Degrees of freedom: the subjects less the covariate columns and two when the design
   * has any entry, the subjects less two otherwise.
   */
  function Dof(nSubjects: nat, st: Stats): (d: int)
    ensures st.covRows * st.covColumns != 0 ==> d + st.covColumns + 2 == nSubjects
    ensures st.covRows * st.covColumns == 0 ==> d + 2 == nSubjects
  {
    if st.covRows * st.covColumns != 0 then nSubjects - st.covColumns - 2 else nSubjects - 2
  }

  /** `np.clip(r, -1.0, 1.0)`: NaN stays NaN. */
  function Clip(x: Float): (r: Float)
    ensures r.NaN? <==> x.NaN?
    ensures r.Num? ==> -1.0 <= r.r <= 1.0
    ensures x.Num? && -1.0 <= x.r <= 1.0 ==> r == x
    ensures x.Num? && x.r < -1.0 ==> r == Num(-1.0)
    ensures x.Num? && x.r > 1.0 ==> r == Num(1.0)
  {
    match x
    case NaN => NaN
    case Num(v) => if v < -1.0 then Num(-1.0) else if v > 1.0 then Num(1.0) else x
  }

  /** Column `e` of the edge matrix: edge `e` across the subjects. */
  function EdgeColumn(rows: seq<seq<real>>, e: nat): (c: seq<real>)
    requires forall s :: 0 <= s < |rows| ==> e < |rows[s]|
    ensures |c| == |rows| && forall s :: 0 <= s < |rows| ==> c[s] == rows[s][e]
  {
    seq(|rows|, s requires 0 <= s < |rows| => rows[s][e])
  }

  /**
   * `calculate_qcfc` as evidently intended, its node count taken from the first matrix:
   * no matrix is a ValueError, a matrix that is not square of that size is a ValueError,
   * and otherwise one row per lower-triangle edge.
   */
  function QcfcSpec(matrices: seq<ConnMatrix>, key: string, st: Stats): Result<seq<QcfcRow>>
    requires forall s :: 0 <= s < |matrices| ==> matrices[s].arr.Valid()
  {
    if |matrices| == 0 then Err(ValueError("No connectivity matrices provided."))
    else
      var n := matrices[0].arr.nrows;
      if exists s :: 0 <= s < |matrices| && !IsSquare(matrices[s].arr, n) then
        Err(ValueError("All connectivity matrices must be square and the same size."))
      else
        var pairs := TrilPairs(n);
        var rows := seq(|matrices|, s requires 0 <= s < |matrices| => EdgeValues(matrices[s].arr, n));
        var y := Motion(matrices, key);
        var dof := Dof(|matrices|, st);
        Ok(seq(|pairs|, e requires 0 <= e < |pairs| =>
          var r := Clip(st.correlate(EdgeColumn(rows, e), y));
          QcfcRow(pairs[e].0, pairs[e].1, r, st.pValue(r, dof))))
  }

  /** The edge matrix read back column by column. */
  function ColumnOf(x: array2<real>, e: nat): (c: seq<real>)
    requires e < x.Length1
    reads x
    ensures |c| == x.Length0 && forall s :: 0 <= s < x.Length0 ==> c[s] == x[s, e]
  {
    seq(x.Length0, s requires 0 <= s < x.Length0 reads x => x[s, e])
  }

  /** `calculate_qcfc` with the node count taken from the first matrix. */
  method CalculateQcfc(matrices: seq<ConnMatrix>, key: string, st: Stats) returns (r: Result<seq<QcfcRow>>)
    requires forall s :: 0 <= s < |matrices| ==> matrices[s].arr.Valid()
    ensures r == QcfcSpec(matrices, key, st)
  {
    if |matrices| == 0 {
      return Err(ValueError("No connectivity matrices provided."));
    }
    var n := matrices[0].arr.nrows;
    var ok, x := ExtractEdges(matrices, n);
    if !ok {
      return Err(ValueError("All connectivity matrices must be square and the same size."));
    }
    var pairs := TrilPairs(n);
    var y := Motion(matrices, key);
    var dof := Dof(|matrices|, st);
    var out := seq(|pairs|, e requires 0 <= e < |pairs| reads x =>
      var c := Clip(st.correlate(ColumnOf(x, e), y));
      QcfcRow(pairs[e].0, pairs[e].1, c, st.pValue(c, dof)));
    ghost var rows := seq(|matrices|, s requires 0 <= s < |matrices| => EdgeValues(matrices[s].arr, n));
    forall e | 0 <= e < |pairs| ensures ColumnOf(x, e) == EdgeColumn(rows, e) {
    }
    ghost var want := seq(|pairs|, e requires 0 <= e < |pairs| =>
      var c := Clip(st.correlate(EdgeColumn(rows, e), y));
      QcfcRow(pairs[e].0, pairs[e].1, c, st.pValue(c, dof)));
    assert out == want;
    assert QcfcSpec(matrices, key, st) == Ok(want);
    r := Ok(out);
  }

  /** No matrix, or a matrix that is not square of the first one's size, is exactly when QC-FC fails. */
  lemma QcfcErrors(matrices: seq<ConnMatrix>, key: string, st: Stats)
    requires forall s :: 0 <= s < |matrices| ==> matrices[s].arr.Valid()
    ensures QcfcSpec(matrices, key, st).Err? <==>
      |matrices| == 0 || exists s :: 0 <= s < |matrices| && !IsSquare(matrices[s].arr, matrices[0].arr.nrows)
    ensures QcfcSpec(matrices, key, st).Err? ==> QcfcSpec(matrices, key, st).error.ValueError?
  {
  }

  /**
   * The output has one row per lower-triangle edge, n(n-1)/2 of them, in the order of
   * `TrilPairs` (row-major, every pair `j < i < n` once), and each correlation is NaN or
   * within [-1, 1].
   */
  lemma QcfcRows(matrices: seq<ConnMatrix>, key: string, st: Stats)
    requires forall s :: 0 <= s < |matrices| ==> matrices[s].arr.Valid()
    requires QcfcSpec(matrices, key, st).Ok?
    ensures var n := matrices[0].arr.nrows;
      var out := QcfcSpec(matrices, key, st).value;
      && 2 * |out| == n * (n - 1)
      && (forall e :: 0 <= e < |out| ==> out[e].j < out[e].i < n && (out[e].i, out[e].j) == TrilPairs(n)[e])
      && (forall e :: 0 <= e < |out| ==> out[e].correlation.NaN? || -1.0 <= out[e].correlation.r <= 1.0)
  {
    var n := matrices[0].arr.nrows;
    var pairs := TrilPairs(n);
    var rows := seq(|matrices|, s requires 0 <= s < |matrices| => EdgeValues(matrices[s].arr, n));
    var y := Motion(matrices, key);
    var dof := Dof(|matrices|, st);
    var out := seq(|pairs|, e requires 0 <= e < |pairs| =>
      var r := Clip(st.correlate(EdgeColumn(rows, e), y));
      QcfcRow(pairs[e].0, pairs[e].1, r, st.pValue(r, dof)));
    assert QcfcSpec(matrices, key, st).value == out;
    TrilLength(n);
    TrilMembers(n);
    forall e | 0 <= e < |out|
      ensures out[e].j < out[e].i < n && (out[e].i, out[e].j) == pairs[e]
      ensures out[e].correlation.NaN? || -1.0 <= out[e].correlation.r <= 1.0
    {
      assert pairs[e] in pairs;
      var c := Clip(st.correlate(EdgeColumn(rows, e), y));
      assert out[e].correlation == c;
    }
  }

  // ------------------------------------------------------------------
  // The node count as written

  /**
   * `calculate_qcfc` as written: the node count is read from a set comprehension over an
   * undefined name, so every call with at least one matrix raises NameError there.
   */
  function CalculateQcfcAsWritten(matrices: seq<ConnMatrix>, key: string, st: Stats): (r: Result<seq<QcfcRow>>)
    ensures r.Err?
    ensures |matrices| > 0 ==> r == Err(NameError("dim"))
  {
    if |matrices| == 0 then Err(ValueError("No connectivity matrices provided.")) else Err(NameError("dim"))
  }

  /** One subject with a 2-by-2 matrix: the code as written raises, the intended code gives the single edge (1, 0). */
  lemma AsWrittenRejectsValidInput(st: Stats)
    ensures var m := [ConnMatrix(map["MeanFramewiseDisplacement" := 0.2], Matrix(2, 2, [[1.0, 0.5], [0.5, 1.0]]))];
      && CalculateQcfcAsWritten(m, "MeanFramewiseDisplacement", st) == Err(NameError("dim"))
      && QcfcSpec(m, "MeanFramewiseDisplacement", st).Ok?
      && |QcfcSpec(m, "MeanFramewiseDisplacement", st).value| == 1
      && QcfcSpec(m, "MeanFramewiseDisplacement", st).value[0].i == 1
      && QcfcSpec(m, "MeanFramewiseDisplacement", st).value[0].j == 0
  {
    var m := [ConnMatrix(map["MeanFramewiseDisplacement" := 0.2], Matrix(2, 2, [[1.0, 0.5], [0.5, 1.0]]))];
    assert TrilPairs(1) == [];
    assert TrilPairs(2) == [(1, 0)];
  }

  // ------------------------------------------------------------------
  // Significance

  /**
   * `significant_level`: with a correction method the abstract multiple-testing procedure
   * decides; without one each value is significant when it is below `alpha` (NaN never is).
   */
  function SignificantLevel(x: seq<Float>, alpha: real, correction: Option<string>,
    multipletests: (seq<Float>, real, string) -> seq<bool>): (r: seq<bool>)
    ensures correction.None? ==> |r| == |x| && forall k :: 0 <= k < |x| ==> (r[k] <==> x[k].Num? && x[k].r < alpha)
  {
    match correction
    case Some(how) => multipletests(x, alpha, how)
    case None => seq(|x|, k requires 0 <= k < |x| => x[k].Num? && x[k].r < alpha)
  }
}
