/** Condition representations as arrays of reals, and the shape operations the
    embedding construction applies to them (data.py:255-297, plus the
    `jnp.concatenate` and `jnp.tile` calls of data.py:363-382). */
module Shapes {
  import opened Wrappers
  import opened Tables

  /** A rank-2 array: `width` columns and one sequence of reals per row. The
      width is kept apart from the rows so that a `(0, F)` array keeps its F. */
  datatype Matrix = Matrix(width: nat, rows: seq<seq<real>>) {
    ghost predicate Rect() {
      forall i :: 0 <= i < |rows| ==> |rows[i]| == width
    }
  }

  /** A condition representation of any rank: a scalar, a vector, a matrix, or
      an array of rank three or more (whose entries never matter here). */
  datatype Array = Scalar(x: real) | Vector(v: seq<real>) | Matrix2(m: Matrix) | Tensor(rank: nat)

  ghost predicate WellFormed(a: Array) {
    a.Matrix2? ==> a.m.Rect()
  }

  /** The rows of a matrix laid end to end (row-major order). */
  function Flatten(rows: seq<seq<real>>): seq<real> {
    if rows == [] then [] else Flatten(rows[..|rows| - 1]) + rows[|rows| - 1]
  }

  /** The entries of an array of rank at most two, in row-major order. */
  function Entries(a: Array): seq<real>
    requires !a.Tensor?
  {
    match a
    case Scalar(x) => [x]
    case Vector(v) => v
    case Matrix2(m) => Flatten(m.rows)
  }

  /** The single column of an `(F, 1)` matrix. */
  function Column(m: Matrix): (col: seq<real>)
    requires m.Rect() && m.width == 1
    ensures |col| == |m.rows|
  {
    seq(|m.rows|, i requires 0 <= i < |m.rows| => m.rows[i][0])
  }

  lemma {:induction false} FlattenColumn(m: Matrix)
    requires m.Rect() && m.width == 1
    ensures Flatten(m.rows) == Column(m)
    decreases |m.rows|
  {
    if m.rows != [] {
      var init := Matrix(1, m.rows[..|m.rows| - 1]);
      FlattenColumn(init);
      assert m.rows[|m.rows| - 1] == [m.rows[|m.rows| - 1][0]];
    }
  }

  /** `_check_shape`: normalise a condition representation to exactly one row.
      A scalar becomes `[[x]]`, a vector `v` becomes `[v]`, a one-row matrix is
      kept, an `(F, 1)` column is transposed; any other matrix and any array of
      rank above two are refused. */
  function CheckShape(a: Array): (r: Result<Matrix, Error>)
    requires WellFormed(a)
    ensures r.Ok? <==> !a.Tensor? && !(a.Matrix2? && |a.m.rows| != 1 && a.m.width != 1)
    ensures r.Ok? ==> r.value.Rect() && |r.value.rows| == 1 && r.value.rows[0] == Entries(a)
    ensures r.Ok? ==> r.value.width == |Entries(a)|
    ensures a.Tensor? ==> r == Err(TooManyDimensions)
    ensures a.Matrix2? && r.Err? ==> r == Err(UnexpectedShape)
  {
    match a
    case Scalar(x) => Ok(Matrix(1, [[x]]))
    case Vector(v) => Ok(Matrix(|v|, [v]))
    case Matrix2(m) =>
      if |m.rows| == 1 then
        assert Flatten(m.rows) == m.rows[0] by {
          assert m.rows[..0] == [];
        }
        Ok(m)
      else if m.width == 1 then
        FlattenColumn(m);
        Ok(Matrix(|m.rows|, [Column(m)]))
      else Err(UnexpectedShape)
    case Tensor(_) => Err(TooManyDimensions)
  }

  /** Normalising an already normalised representation changes nothing. */
  lemma CheckShapeIdempotent(a: Array)
    requires WellFormed(a) && CheckShape(a).Ok?
    ensures CheckShape(Matrix2(CheckShape(a).value)) == CheckShape(a)
  {
  }

  /** A length-F vector and the `(1, F)` row holding it normalise alike, and a
      `(2, 2)` matrix is refused. */
  lemma VectorAndRowAgree(v: seq<real>)
    ensures CheckShape(Vector(v)) == CheckShape(Matrix2(Matrix(|v|, [v])))
    ensures CheckShape(Matrix2(Matrix(2, [[0.0, 0.0], [0.0, 0.0]]))) == Err(UnexpectedShape)
  {
  }

  /** `k` rows of `w` copies of `v` (`jnp.full((k, w), v)`). */
  function NullRows(k: nat, w: nat, v: real): (rows: seq<seq<real>>)
    ensures |rows| == k
    ensures forall i :: 0 <= i < k ==> rows[i] == seq(w, _ => v)
  {
    seq(k, _ => seq(w, _ => v))
  }

  /** `_pad_to_max_length`: append `null_value` rows of the same width until
      the matrix has `maxLength` rows; a matrix already that long is returned
      as it is, never truncated. */
  function PadToMaxLength(m: Matrix, maxLength: int, nullValue: real): (r: Matrix)
    ensures r.width == m.width
    ensures |r.rows| == if |m.rows| < maxLength then maxLength else |m.rows|
    ensures r.rows[..|m.rows|] == m.rows
    ensures forall i :: |m.rows| <= i < |r.rows| ==> r.rows[i] == seq(m.width, _ => nullValue)
    ensures m.Rect() ==> r.Rect()
  {
    if |m.rows| < maxLength then
      Matrix(m.width, m.rows + NullRows(maxLength - |m.rows|, m.width, nullValue))
    else m
  }

  /** Padding twice pads no more than padding once. */
  lemma PadIdempotent(m: Matrix, maxLength: int, nullValue: real)
    ensures PadToMaxLength(PadToMaxLength(m, maxLength, nullValue), maxLength, nullValue)
         == PadToMaxLength(m, maxLength, nullValue)
  {
  }

  /** The rows of a list of matrices, stacked in list order. */
  function StackRows(ms: seq<Matrix>): (rows: seq<seq<real>>)
  {
    if ms == [] then [] else StackRows(ms[..|ms| - 1]) + ms[|ms| - 1].rows
  }

  /** Stacking one-row matrices gives one row per matrix, in order. */
  lemma {:induction false} StackSingleRows(ms: seq<Matrix>)
    requires forall i :: 0 <= i < |ms| ==> |ms[i].rows| == 1
    ensures |StackRows(ms)| == |ms|
    ensures forall i :: 0 <= i < |ms| ==> StackRows(ms)[i] == ms[i].rows[0]
  {
    if ms != [] {
      StackSingleRows(ms[..|ms| - 1]);
    }
  }

  lemma {:induction false} StackRect(ms: seq<Matrix>, w: nat)
    requires forall i :: 0 <= i < |ms| ==> ms[i].width == w && ms[i].Rect()
    ensures Matrix(w, StackRows(ms)).Rect()
  {
    if ms != [] {
      StackRect(ms[..|ms| - 1], w);
    }
  }

  /** `jnp.concatenate(ms, axis=0)`: refused for an empty list and for
      matrices of different widths. */
  function Concatenate(ms: seq<Matrix>): (r: Result<Matrix, Error>)
    ensures ms == [] ==> r == Err(NothingToConcatenate)
    ensures r.Ok? <==> ms != [] && forall i :: 0 <= i < |ms| ==> ms[i].width == ms[0].width
    ensures r.Ok? ==> r.value.width == ms[0].width && r.value.rows == StackRows(ms)
    ensures ms != [] && r.Err? ==> r.error == ConcatenationMismatch
  {
    if ms == [] then Err(NothingToConcatenate)
    else if forall i :: 0 <= i < |ms| ==> ms[i].width == ms[0].width then
      Ok(Matrix(ms[0].width, StackRows(ms)))
    else Err(ConcatenationMismatch)
  }

  /** `k` copies of `rows`, one after the other. */
  function Repeat(rows: seq<seq<real>>, k: nat): (r: seq<seq<real>>)
    ensures |r| == k * |rows|
    ensures |rows| == 1 ==> forall i :: 0 <= i < |r| ==> r[i] == rows[0]
  {
    if k == 0 then [] else Repeat(rows, k - 1) + rows
  }

  /** `jnp.tile(m, (count, 1))`: the rows of `m` repeated `count` times (none
      when `count` is not positive). */
  function Tile(m: Matrix, count: int): (r: Matrix)
    ensures r.width == m.width
    ensures |m.rows| == 1 ==> |r.rows| == (if count > 0 then count else 0)
    ensures |m.rows| == 1 ==> forall i :: 0 <= i < |r.rows| ==> r.rows[i] == m.rows[0]
  {
    Matrix(m.width, Repeat(m.rows, if count > 0 then count else 0))
  }

  function ScaleRow(v: seq<real>, x: real): (r: seq<real>)
    ensures |r| == |v| && forall i :: 0 <= i < |v| ==> r[i] == v[i] * x
  {
    seq(|v|, i requires 0 <= i < |v| => v[i] * x)
  }

  /** Every row of a matrix scaled by `x`. */
  function ScaleRows(rows: seq<seq<real>>, x: real): (r: seq<seq<real>>)
    ensures |r| == |rows| && forall i :: 0 <= i < |rows| ==> r[i] == ScaleRow(rows[i], x)
  {
    seq(|rows|, i requires 0 <= i < |rows| => ScaleRow(rows[i], x))
  }

  lemma ScaleRowAppend(u: seq<real>, v: seq<real>, x: real)
    ensures ScaleRow(u + v, x) == ScaleRow(u, x) + ScaleRow(v, x)
  {
    var l := ScaleRow(u + v, x);
    var r := ScaleRow(u, x) + ScaleRow(v, x);
    assert |l| == |r|;
    forall i | 0 <= i < |l| ensures l[i] == r[i] {
      if i < |u| {
        assert (u + v)[i] == u[i];
      } else {
        assert (u + v)[i] == v[i - |u|];
      }
    }
  }

  /** Scaling every row scales the rows laid end to end. */
  lemma {:induction false} FlattenScale(rows: seq<seq<real>>, x: real)
    ensures Flatten(ScaleRows(rows, x)) == ScaleRow(Flatten(rows), x)
    decreases |rows|
  {
    var scaled := ScaleRows(rows, x);
    if rows != [] {
      var init := rows[..|rows| - 1];
      FlattenScale(init, x);
      assert scaled[..|rows| - 1] == ScaleRows(init, x);
      ScaleRowAppend(Flatten(init), rows[|rows| - 1], x);
    } else {
      assert scaled == [];
    }
  }

  /** Scaling multiplies every entry and keeps their order. */
  lemma ScaleEntries(a: Array, x: real)
    requires WellFormed(a) && !a.Tensor?
    ensures Entries(Scale(a, x)) == ScaleRow(Entries(a), x)
  {
    if a.Matrix2? {
      FlattenScale(a.m.rows, x);
    } else if a.Scalar? {
      assert Scale(a, x) == Scalar(a.x * x);
      assert |ScaleRow([a.x], x)| == 1 && ScaleRow([a.x], x)[0] == a.x * x;
      assert ScaleRow([a.x], x) == [a.x * x];
    }
  }

  /** `arr *= x` for a real `x`: every entry multiplied, the shape kept. */
  function Scale(a: Array, x: real): (r: Array)
    requires WellFormed(a)
    ensures WellFormed(r)
    ensures a.Scalar? == r.Scalar? && a.Vector? == r.Vector? && a.Matrix2? == r.Matrix2? && a.Tensor? == r.Tensor?
    ensures a.Matrix2? ==> r.m.width == a.m.width && |r.m.rows| == |a.m.rows|
  {
    match a
    case Scalar(y) => Scalar(y * x)
    case Vector(v) => Vector(ScaleRow(v, x))
    case Matrix2(m) =>
      Matrix2(Matrix(m.width, ScaleRows(m.rows, x)))
    case Tensor(k) => Tensor(k)
  }
}
