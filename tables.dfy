/** The per-cell metadata table (`adata.obs`) as a sequence of rows, the
    errors the data pipeline raises, and the pandas operations the pipeline
    relies on: selecting columns of a row and `drop_duplicates`, which keeps
    the first appearance of every distinct row in row order. */
module Tables {
  import opened Wrappers

  /** One metadata value. Pandas columns hold numbers, strings, booleans or
      missing values. */
  datatype Cell = Null | Num(r: real) | Text(s: string) | Flag(b: bool)

  /** A row of `adata.obs`: column name to value. */
  type Row = map<string, Cell>

  /** `adata.obs`: its column names and its rows, one per cell. */
  datatype Obs = Obs(columns: set<string>, rows: seq<Row>) {
    /** Every row has exactly the table's columns. */
    ghost predicate Valid() {
      forall i :: 0 <= i < |rows| ==> rows[i].Keys == columns
    }
  }

  /** The error taxonomy shared by every module. Each variant stands for
      one exception the repository raises, and carries the offending key or
      value that its message names. */
  datatype Error =
    | ControlColumnNotFound(key: string)
    | ControlNotBoolean(key: string)
    | NoControlCells
    | NoPerturbationCovariates
    | EmptyCovariateGroup(group: string)
    | CovariateNotFound(covariate: string)
    | GroupLengthMismatch(lengths: seq<nat>)
    | RepresentationKeyNotCovariate(key: string)
    | RepresentationNotInUns(unsKey: string)
    | RepresentationNotDict(unsKey: string)
    | EmptyMax
    | ColumnKeyError(column: Option<string>)
    | NoValuesAttribute(covariate: string)
    | MixedCovariateTypes(covariate: string)
    | UnexpectedShape
    | TooManyDimensions
    | ConcatenationMismatch
    | NothingToConcatenate
    | EncoderUnpack
    | MissingRepresentation(name: Cell, group: string)
    | UnsKeyError(unsKey: string)
    | UnsNotDict(unsKey: string)
    | RepresentationKeyError(name: Cell, group: string)
    | NotNumeric(value: Cell)
    | CombinationTooLong(observed: nat, maximum: int)
    | SplitCovariateNotFound(covariate: string)
    | InvalidSampleRep
    | EmptySampleRep
    | UnsupportedMetric(metric: string)
    | UnsupportedStage(stage: string)
    | ComparisonLengthMismatch(width: nat)
    | NoCategoryAccessor(covariate: string)

  /** The value of column `k` in `row`; `Null` when the row has no such
      column (never the case once the column has been verified to exist). */
  function Get(row: Row, k: string): (c: Cell)
    ensures k in row ==> c == row[k]
  {
    if k in row then row[k] else Null
  }

  /** `row[keys]`: the values of the listed columns, in the listed order. */
  function Project(row: Row, keys: seq<string>): (vs: seq<Cell>)
    ensures |vs| == |keys|
    ensures forall i :: 0 <= i < |keys| ==> vs[i] == Get(row, keys[i])
  {
    seq(|keys|, i requires 0 <= i < |keys| => Get(row, keys[i]))
  }

  /** None of the values `ws` is missing. */
  predicate Complete(ws: seq<Cell>) {
    Null !in ws
  }

  /** Pandas `==` between the values `vs` of a row and the list `ws`,
      reduced with `.all(axis=1)`: equal at every position, where a missing
      value equals nothing, not even another missing value. */
  predicate Matches(vs: seq<Cell>, ws: seq<Cell>) {
    vs == ws && Complete(ws)
  }

  /** `obs[keys]` row by row. */
  function ProjectAll(rows: seq<Row>, keys: seq<string>): (ps: seq<seq<Cell>>)
    ensures |ps| == |rows|
    ensures forall c :: 0 <= c < |rows| ==> ps[c] == Project(rows[c], keys)
  {
    seq(|rows|, c requires 0 <= c < |rows| => Project(rows[c], keys))
  }

  /** Position of the first occurrence of `x` in `s`. */
  function FirstIndex<T(==)>(s: seq<T>, x: T): (i: nat)
    requires x in s
    ensures i < |s| && s[i] == x && x !in s[..i]
  {
    if s[0] == x then 0 else 1 + FirstIndex(s[1..], x)
  }

  lemma {:induction false} FirstIndexOfPrefix<T>(s: seq<T>, n: nat, x: T)
    requires n <= |s| && x in s[..n]
    ensures FirstIndex(s, x) == FirstIndex(s[..n], x)
  {
    if s[0] != x {
      assert s[1..][..n - 1] == s[..n][1..];
      FirstIndexOfPrefix(s[1..], n - 1, x);
    }
  }

  /** `drop_duplicates`: every distinct element of `s` once, in the order of
      first appearance. */
  function Distinct<T(==,!new)>(s: seq<T>): (r: seq<T>)
    ensures forall x :: x in r <==> x in s
    ensures forall a, b :: 0 <= a < b < |r| ==> r[a] != r[b]
    ensures forall a, b :: 0 <= a < b < |r| ==> FirstIndex(s, r[a]) < FirstIndex(s, r[b])
  {
    if s == [] then []
    else
      var init, last := s[..|s| - 1], s[|s| - 1];
      var r0 := Distinct(init);
      var r := if last in init then r0 else r0 + [last];
      DistinctStep(init, last, r0, r);
      assert s == init + [last];
      r
  }

  /** One more element keeps the first occurrences of `init + [last]` in
      order: the kept elements of `init`, then `last` when it is new. */
  lemma DistinctStep<T(!new)>(init: seq<T>, last: T, r0: seq<T>, r: seq<T>)
    requires forall x :: x in r0 <==> x in init
    requires forall a, b :: 0 <= a < b < |r0| ==> r0[a] != r0[b]
    requires forall a, b :: 0 <= a < b < |r0| ==> FirstIndex(init, r0[a]) < FirstIndex(init, r0[b])
    requires r == if last in init then r0 else r0 + [last]
    ensures forall x :: x in r <==> x in init + [last]
    ensures forall a, b :: 0 <= a < b < |r| ==> r[a] != r[b]
    ensures forall a, b :: 0 <= a < b < |r| ==> FirstIndex(init + [last], r[a]) < FirstIndex(init + [last], r[b])
  {
    var s := init + [last];
    assert s[..|init|] == init;
    forall a | 0 <= a < |r0| ensures FirstIndex(s, r0[a]) == FirstIndex(init, r0[a]) {
      assert r0[a] in r0;
      FirstIndexOfPrefix(s, |init|, r0[a]);
    }
    if last !in init {
      assert FirstIndex(s, last) == |init|;
      forall a, b | 0 <= a < b < |r| ensures r[a] != r[b] && FirstIndex(s, r[a]) < FirstIndex(s, r[b]) {
        assert r[a] == r0[a] && r0[a] in r0;
        if b < |r0| {
          assert r[b] == r0[b];
        }
      }
    }
  }

  /** Every element of `s` survives `drop_duplicates`. */
  lemma InDistinct<T(!new)>(s: seq<T>, i: nat)
    requires i < |s|
    ensures s[i] in Distinct(s)
  {
  }

  /** Some element occurs twice in `s`. */
  predicate HasRepeat<T(==)>(s: seq<T>) {
    s != [] && (s[0] in s[1..] || HasRepeat(s[1..]))
  }

  lemma {:induction false} HasRepeatMeans<T>(s: seq<T>)
    ensures HasRepeat(s) <==> exists i, j :: 0 <= i < j < |s| && s[i] == s[j]
  {
    if s != [] {
      var rest := s[1..];
      HasRepeatMeans(rest);
      if s[0] in rest {
        var j :| 0 <= j < |rest| && rest[j] == s[0];
        assert s[0] == s[j + 1];
      } else if HasRepeat(rest) {
        var i, j :| 0 <= i < j < |rest| && rest[i] == rest[j];
        assert s[i + 1] == s[j + 1];
      } else {
        forall i, j | 0 <= i < j < |s| ensures s[i] != s[j] {
          assert s[j] == rest[j - 1];
          if i > 0 {
            assert s[i] == rest[i - 1];
          }
        }
      }
    }
  }

  /** Position of `x` in a sequence without repetitions. */
  function IndexOf<T(==)>(s: seq<T>, x: T): (i: nat)
    requires x in s
    ensures i < |s| && s[i] == x
  {
    FirstIndex(s, x)
  }

  lemma IndexOfUnique<T>(s: seq<T>, i: nat)
    requires i < |s|
    requires forall a, b :: 0 <= a < b < |s| ==> s[a] != s[b]
    ensures IndexOf(s, s[i]) == i
  {
  }
}
