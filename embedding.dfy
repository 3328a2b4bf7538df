/** The condition embedding of one target condition
    (`_get_perturbation_covariates`, data.py:299-382): one padded matrix per
    perturbation covariate group, one row per primary covariate, and one tiled
    matrix per sample covariate. */
module Embedding {
  import opened Wrappers
  import opened Tables
  import opened Dicts
  import opened Shapes
  import opened Covariates

  /** Every representation stored in `adata.uns` is a proper array. */
  ghost predicate RepsWellFormed(uns: Uns) {
    forall k, v :: k in uns && uns[k].RepDict? && v in uns[k].reps ==> WellFormed(uns[k].reps[v])
  }

  /** Everything the embedding of one condition reads besides the encoder:
      the condition's row, `adata.uns`, the merged representation keys, the
      perturbation groups, the sample covariates, the primary-to-linked map,
      the combination length, the null value, the encoder's `transform` and
      the numeric reading of a cell. */
  datatype Inputs = Inputs(
    cond: Row,
    uns: Uns,
    reps: Dict<string>,
    groups: Groups,
    samples: seq<string>,
    ptl: Links,
    maxLength: int,
    nullValue: real,
    transform: (Encoder, Cell) -> Array,
    toFloat: Cell -> Option<real>)
  {
    /** The shape the loading code guarantees: a primary group, distinct
        group names, an entry of `ptl` for every primary covariate naming
        every linked group (as `_get_linked_covariates` builds it), and
        rectangular arrays everywhere. */
    ghost predicate Valid() {
      && |groups| > 0
      && DistinctKeys(groups)
      && (forall k :: k in groups[0].1 ==> k in ptl)
      && (forall k, h :: k in ptl && 1 <= h < |groups| ==> groups[h].0 in ptl[k])
      && RepsWellFormed(uns)
      && forall e, c :: WellFormed(transform(e, c))
    }
  }

  /** The map `_get_linked_covariates` returns has an entry for every
      primary covariate, and each entry names every linked group. */
  lemma LinkedShapeLinks(groups: Groups, ptl: Links)
    requires |groups| > 0 && LinkedShape(groups, ptl)
    ensures forall k :: k in groups[0].1 ==> k in ptl
    ensures forall k, h :: k in ptl && 1 <= h < |groups| ==> groups[h].0 in ptl[k]
  {
    forall k, h | k in ptl && 1 <= h < |groups| ensures groups[h].0 in ptl[k] {
      assert groups[h].0 in LinkedNames(groups, |groups|);
    }
  }

  // ------------------------------------------------------------ lookups

  /** `condition_data[cov]` on the condition's row; `None` and absent columns
      raise `KeyError`. */
  function CondValue(cond: Row, cov: Covariate): (r: Result<Cell, Error>)
    ensures r.Ok? <==> cov.Some? && cov.value in cond
    ensures r.Ok? ==> r.value == cond[cov.value]
    ensures r.Err? ==> r.error == ColumnKeyError(cov)
  {
    if cov.Some? && cov.value in cond then Ok(cond[cov.value]) else Err(ColumnKeyError(cov))
  }

  /** `rep_dict[group][name]` where `rep_dict` is `adata.uns`: a missing uns
      key, a non-dictionary entry and a missing name each fail, the last with
      the error `missing` the caller raises for it. */
  function RepLookup(uns: Uns, group: string, name: Cell, missing: Error): (r: Result<Array, Error>)
    requires RepsWellFormed(uns)
    ensures r.Ok? <==> group in uns && uns[group].RepDict? && name in uns[group].reps
    ensures r.Ok? ==> r.value == uns[group].reps[name] && WellFormed(r.value)
    ensures group !in uns ==> r == Err(UnsKeyError(group))
    ensures group in uns && uns[group].RepDict? && name !in uns[group].reps ==> r == Err(missing)
  {
    if group !in uns then Err(UnsKeyError(group))
    else if !uns[group].RepDict? then Err(UnsNotDict(group))
    else if name !in uns[group].reps then Err(missing)
    else Ok(uns[group].reps[name])
  }

  /** `jnp.asarray(value)` for one cell: a number, or a boolean as 0 or 1,
      becomes a scalar array; a string or a missing value raises
      `TypeError`. This is not the pandas reading of the cell: a string
      such as "1.5" is refused even though `astype(float)` would read it. */
  function AsArray(value: Cell): (r: Result<Array, Error>)
    ensures r.Ok? <==> value.Num? || value.Flag?
    ensures value.Num? ==> r == Ok(Scalar(value.r))
    ensures value.Flag? ==> r == Ok(Scalar(if value.b then 1.0 else 0.0))
    ensures r.Err? ==> r.error == NotNumeric(value)
  {
    match value
    case Num(x) => Ok(Scalar(x))
    case Flag(b) => Ok(Scalar(if b then 1.0 else 0.0))
    case _ => Err(NotNumeric(value))
  }

  // ------------------------------------------------------------ one row each

  /** The row of one primary covariate: its representation looked up under
      the value (categorical) or the column name (numeric), or else the
      encoder's one-hot row of that name; a numeric covariate's array is then
      multiplied by the row's value; finally normalised to one row. */
  function PrimaryRow(inp: Inputs, enc: Encoder, isCat: bool, cov: Covariate): (r: Result<Matrix, Error>)
    requires inp.Valid()
    ensures r.Ok? ==> r.value.Rect() && |r.value.rows| == 1
    ensures (cov.None? || cov.value !in inp.cond) ==> r == Err(ColumnKeyError(cov))
  {
    var value :- CondValue(inp.cond, cov);
    var name := if isCat then value else Text(cov.value);
    var group := inp.groups[0].0;
    var arr :- if group in Keys(inp.reps)
      then RepLookup(inp.uns, group, name, MissingRepresentation(name, group))
      else Ok(inp.transform(enc, name));
    var scaled :- if isCat then Ok(arr)
      else match inp.toFloat(value)
           case Some(x) => Ok(Scale(arr, x))
           case None => Err(NotNumeric(value));
    CheckShape(scaled)
  }

  /** The row a linked group contributes for one primary covariate: a single
      null value when the slot is `None`, otherwise the representation of the
      row's value in that column, or the value itself as a scalar. */
  function LinkedRow(inp: Inputs, g: nat, lc: Covariate): (r: Result<Matrix, Error>)
    requires inp.Valid() && g < |inp.groups|
    ensures r.Ok? ==> r.value.Rect() && |r.value.rows| == 1
    ensures lc.None? ==> r == Ok(Matrix(1, [[inp.nullValue]]))
  {
    if lc.None? then
      CheckShape(Matrix2(Matrix(1, [[inp.nullValue]])))
    else
      var value :- CondValue(inp.cond, lc);
      var group := inp.groups[g].0;
      var arr :- if group in Keys(inp.reps)
        then RepLookup(inp.uns, group, value, MissingRepresentation(value, group))
        else AsArray(value);
      CheckShape(arr)
  }

  /** The row group `g` receives for the `i`-th primary covariate: the
      primary row itself for the primary group, otherwise the row of the
      covariate linked to it in that group. */
  function GroupRow(inp: Inputs, enc: Encoder, isCat: bool, g: nat, i: nat): (r: Result<Matrix, Error>)
    requires inp.Valid() && g < |inp.groups| && i < |inp.groups[0].1|
    ensures r.Ok? ==> r.value.Rect() && |r.value.rows| == 1
  {
    var primary := inp.groups[0].1;
    if g == 0 then PrimaryRow(inp, enc, isCat, primary[i])
    else
      LinkedRow(inp, g, inp.ptl[primary[i]][inp.groups[g].0])
  }

  /** A numeric primary covariate without a representation is the one-hot
      row of its column name multiplied by the row's value. */
  lemma PrimaryRowScaled(inp: Inputs, enc: Encoder, cov: string, x: real)
    requires inp.Valid() && cov in inp.cond && inp.groups[0].0 !in Keys(inp.reps)
    requires inp.toFloat(inp.cond[cov]) == Some(x)
    requires CheckShape(inp.transform(enc, Text(cov))).Ok?
    ensures PrimaryRow(inp, enc, false, Some(cov)).Ok?
    ensures PrimaryRow(inp, enc, false, Some(cov)).value.rows[0] == ScaleRow(Entries(inp.transform(enc, Text(cov))), x)
  {
    ScaleEntries(inp.transform(enc, Text(cov)), x);
  }

  /** A primary or linked value absent from its group's representation
      dictionary is refused with an error naming the value and the group. */
  lemma MissingRepresentationRaised(inp: Inputs, enc: Encoder, g: nat, cov: string)
    requires inp.Valid() && g < |inp.groups| && cov in inp.cond
    requires inp.groups[g].0 in Keys(inp.reps) && inp.groups[g].0 in inp.uns
    requires inp.uns[inp.groups[g].0].RepDict? && inp.cond[cov] !in inp.uns[inp.groups[g].0].reps
    ensures g == 0 ==> PrimaryRow(inp, enc, true, Some(cov)) == Err(MissingRepresentation(inp.cond[cov], inp.groups[0].0))
    ensures LinkedRow(inp, g, Some(cov)) == Err(MissingRepresentation(inp.cond[cov], inp.groups[g].0))
  {
  }

  // ------------------------------------------------------------ sample covariates

  /** The representation of sample covariate `s`, normalised to one row: the
      row's value looked up directly in `adata.uns[s]` when `s` has a
      representation, the value itself otherwise. A value missing from the
      dictionary raises `KeyError`. */
  function SampleBase(inp: Inputs, s: string): (r: Result<Matrix, Error>)
    requires RepsWellFormed(inp.uns)
    ensures r.Ok? ==> r.value.Rect() && |r.value.rows| == 1
  {
    if s in Keys(inp.reps) then
      if s !in inp.uns then Err(UnsKeyError(s))
      else
        var value :- CondValue(inp.cond, Some(s));
        var arr :- RepLookup(inp.uns, s, value, RepresentationKeyError(value, s));
        CheckShape(arr)
    else
      var value :- CondValue(inp.cond, Some(s));
      var arr :- AsArray(value);
      CheckShape(arr)
  }

  /** The embedding of sample covariate `s`: its one row repeated
      `max_combination_length` times. */
  function SampleRow(inp: Inputs, s: string): (r: Result<Matrix, Error>)
    requires RepsWellFormed(inp.uns)
  {
    var m :- SampleBase(inp, s);
    Ok(Tile(m, inp.maxLength))
  }

  /** A sample covariate's embedding exists exactly when its one-row form
      does, and is that row `max_combination_length` times (no rows when
      the length is not positive). */
  lemma SampleRowTiled(inp: Inputs, s: string)
    requires RepsWellFormed(inp.uns)
    ensures SampleRow(inp, s).Ok? <==> SampleBase(inp, s).Ok?
    ensures SampleRow(inp, s).Ok? ==>
      var m := SampleRow(inp, s).value;
      && m.width == SampleBase(inp, s).value.width
      && |m.rows| == (if inp.maxLength > 0 then inp.maxLength else 0)
      && forall i :: 0 <= i < |m.rows| ==> m.rows[i] == SampleBase(inp, s).value.rows[0]
  {
  }

  /** The sample-covariate branch as written: the row's value is a scalar,
      so asking it for `.values` raises `AttributeError` whenever the
      covariate has a representation (after `adata.uns[s]` is fetched and
      the column is read). */
  function SampleRowAsWritten(inp: Inputs, s: string): (r: Result<Matrix, Error>)
    requires RepsWellFormed(inp.uns)
    ensures s in Keys(inp.reps) && s in inp.uns && s in inp.cond ==> r == Err(NoValuesAttribute(s))
    ensures s !in Keys(inp.reps) ==> r == SampleRow(inp, s)
  {
    if s in Keys(inp.reps) then
      if s !in inp.uns then Err(UnsKeyError(s))
      else
        var _ :- CondValue(inp.cond, Some(s));
        Err(NoValuesAttribute(s))
    else
      var m :- SampleBase(inp, s);
      Ok(Tile(m, inp.maxLength))
  }

  /** A cell-type covariate with an embedding for the row's value: the
      corrected branch yields the tiled embedding, the branch as written
      fails. */
  lemma SampleRepresentationCounterexample()
    ensures
      var inp := Inputs(
        map["cell_type" := Text("A")],
        map["cell_type" := RepDict(map[Text("A") := Vector([1.0, 2.0])])],
        [("cell_type", "cell_type")],
        [("drug", [Some("drug")])],
        ["cell_type"],
        map[Some("drug") := map[]],
        2, 0.0,
        (e, c) => Scalar(0.0),
        c => None);
      && SampleRow(inp, "cell_type") == Ok(Matrix(2, [[1.0, 2.0], [1.0, 2.0]]))
      && SampleRowAsWritten(inp, "cell_type") == Err(NoValuesAttribute("cell_type"))
  {
    var inp := Inputs(
      map["cell_type" := Text("A")],
      map["cell_type" := RepDict(map[Text("A") := Vector([1.0, 2.0])])],
      [("cell_type", "cell_type")],
      [("drug", [Some("drug")])],
      ["cell_type"],
      map[Some("drug") := map[]],
      2, 0.0,
      (e, c) => Scalar(0.0),
      c => None);
    assert Keys(inp.reps)[0] == "cell_type";
    assert SampleBase(inp, "cell_type") == Ok(Matrix(2, [[1.0, 2.0]]));
    assert Repeat([[1.0, 2.0]], 2) == [[1.0, 2.0], [1.0, 2.0]] by {
      assert Repeat([[1.0, 2.0]], 1) == [[1.0, 2.0]];
    }
  }

  // ------------------------------------------------------------ whole condition

  /** `lists` holds, for every group, the first `count` rows that group
      receives, in primary-covariate order. */
  ghost predicate Collected(inp: Inputs, enc: Encoder, isCat: bool, lists: seq<seq<Matrix>>, count: nat)
    requires inp.Valid() && count <= |inp.groups[0].1|
  {
    && |lists| == |inp.groups|
    && (forall g :: 0 <= g < |lists| ==> |lists[g]| == count)
    && forall g, i {:trigger GroupRow(inp, enc, isCat, g, i)} :: 0 <= g < |lists| && 0 <= i < count ==> GroupRow(inp, enc, isCat, g, i) == Ok(lists[g][i])
  }

  /** Every group receives a row for every primary covariate. */
  ghost predicate RowsOk(inp: Inputs, enc: Encoder, isCat: bool)
    requires inp.Valid()
  {
    forall g, i :: 0 <= g < |inp.groups| && 0 <= i < |inp.groups[0].1| ==> GroupRow(inp, enc, isCat, g, i).Ok?
  }

  /** Appending to every group the row it receives for the `i`-th primary
      covariate extends lists collected for the first `i` to the first
      `i + 1`. */
  lemma CollectedStep(inp: Inputs, enc: Encoder, isCat: bool, lists: seq<seq<Matrix>>, acc: seq<seq<Matrix>>, i: nat)
    requires inp.Valid() && i < |inp.groups[0].1| && Collected(inp, enc, isCat, lists, i) && |acc| == |lists|
    requires forall g :: 0 <= g < |acc| ==> GroupRow(inp, enc, isCat, g, i).Ok? && acc[g] == lists[g] + [GroupRow(inp, enc, isCat, g, i).value]
    ensures Collected(inp, enc, isCat, acc, i + 1)
  {
    forall g, j | 0 <= g < |acc| && 0 <= j < i + 1 ensures GroupRow(inp, enc, isCat, g, j) == Ok(acc[g][j]) {
      if j < i {
        assert acc[g][j] == lists[g][j];
      }
    }
  }

  /** The rows for the `i`-th primary covariate, appended group by group:
      the primary group's first, then each linked group's in order. */
  method AppendRows(inp: Inputs, enc: Encoder, isCat: bool, lists: seq<seq<Matrix>>, i: nat)
    returns (r: Result<seq<seq<Matrix>>, Error>)
    requires inp.Valid() && i < |inp.groups[0].1| && Collected(inp, enc, isCat, lists, i)
    ensures r.Ok? ==> Collected(inp, enc, isCat, r.value, i + 1)
    ensures r.Ok? <==> forall g :: 0 <= g < |inp.groups| ==> GroupRow(inp, enc, isCat, g, i).Ok?
    ensures r.Err? ==> exists g :: 0 <= g < |inp.groups| && GroupRow(inp, enc, isCat, g, i) == Err(r.error)
                                && forall h :: 0 <= h < g ==> GroupRow(inp, enc, isCat, h, i).Ok?
  {
    var primary := inp.groups[0].1;
    var row := PrimaryRow(inp, enc, isCat, primary[i]);
    if row.Err? {
      assert GroupRow(inp, enc, isCat, 0, i) == row;
      return Err(row.error);
    }
    assert GroupRow(inp, enc, isCat, 0, i) == row;
    var acc := lists[0 := lists[0] + [row.value]];
    var h := 1;
    while h < |inp.groups|
      invariant 1 <= h <= |inp.groups| && |acc| == |lists| == |inp.groups|
      invariant forall g :: 0 <= g < h ==> GroupRow(inp, enc, isCat, g, i).Ok? && acc[g] == lists[g] + [GroupRow(inp, enc, isCat, g, i).value]
      invariant forall g :: h <= g < |acc| ==> acc[g] == lists[g]
    {
      var linked := LinkedRow(inp, h, inp.ptl[primary[i]][inp.groups[h].0]);
      assert GroupRow(inp, enc, isCat, h, i) == linked;
      if linked.Err? {
        return Err(linked.error);
      }
      acc := acc[h := acc[h] + [linked.value]];
      h := h + 1;
    }
    CollectedStep(inp, enc, isCat, lists, acc, i);
    return Ok(acc);
  }

  /** The rows group `g` receives, one per primary covariate. */
  ghost function RowsOf(inp: Inputs, enc: Encoder, isCat: bool, g: nat): (rows: seq<Matrix>)
    requires inp.Valid() && RowsOk(inp, enc, isCat) && g < |inp.groups|
    ensures |rows| == |inp.groups[0].1|
    ensures forall i :: 0 <= i < |rows| ==> GroupRow(inp, enc, isCat, g, i) == Ok(rows[i])
    ensures forall i :: 0 <= i < |rows| ==> rows[i].Rect() && |rows[i].rows| == 1
  {
    seq(|inp.groups[0].1|, i requires 0 <= i < |inp.groups[0].1| => GroupRow(inp, enc, isCat, g, i).value)
  }

  /** Lists collected for every primary covariate are the groups' rows. */
  lemma CollectedRows(inp: Inputs, enc: Encoder, isCat: bool, lists: seq<seq<Matrix>>)
    requires inp.Valid() && RowsOk(inp, enc, isCat) && Collected(inp, enc, isCat, lists, |inp.groups[0].1|)
    ensures forall g :: 0 <= g < |lists| ==> lists[g] == RowsOf(inp, enc, isCat, g)
  {
    forall g | 0 <= g < |lists| ensures lists[g] == RowsOf(inp, enc, isCat, g) {
      var rows := RowsOf(inp, enc, isCat, g);
      forall i | 0 <= i < |rows| ensures lists[g][i] == rows[i] {
        assert GroupRow(inp, enc, isCat, g, i) == Ok(lists[g][i]);
      }
    }
  }

  /** Row `i` of group `g` is the first that cannot be built in the order
      the loops visit them (primary covariate by primary covariate, and
      within one the groups in order), and `e` is its error. */
  ghost predicate FirstRowFailure(inp: Inputs, enc: Encoder, isCat: bool, g: int, i: int, e: Error)
    requires inp.Valid()
  {
    && 0 <= g < |inp.groups| && 0 <= i < |inp.groups[0].1|
    && GroupRow(inp, enc, isCat, g, i) == Err(e)
    && (forall h, j :: 0 <= h < |inp.groups| && 0 <= j < i ==> GroupRow(inp, enc, isCat, h, j).Ok?)
    && (forall h :: 0 <= h < g ==> GroupRow(inp, enc, isCat, h, i).Ok?)
  }

  /** At most one row is the first to fail, so its error is determined. */
  lemma FirstRowFailureUnique(inp: Inputs, enc: Encoder, isCat: bool, g1: int, i1: int, e1: Error, g2: int, i2: int, e2: Error)
    requires inp.Valid()
    requires FirstRowFailure(inp, enc, isCat, g1, i1, e1) && FirstRowFailure(inp, enc, isCat, g2, i2, e2)
    ensures g1 == g2 && i1 == i2 && e1 == e2
  {
  }

  /** The loop over the primary covariates: every group's list of rows, or
      the first row that cannot be built. */
  method CollectRows(inp: Inputs, enc: Encoder, isCat: bool) returns (r: Result<seq<seq<Matrix>>, Error>)
    requires inp.Valid()
    ensures r.Ok? <==> RowsOk(inp, enc, isCat)
    ensures r.Ok? ==> |r.value| == |inp.groups| && forall g :: 0 <= g < |inp.groups| ==> r.value[g] == RowsOf(inp, enc, isCat, g)
    ensures r.Err? ==> exists g, i :: 0 <= g < |inp.groups| && 0 <= i < |inp.groups[0].1| && GroupRow(inp, enc, isCat, g, i) == Err(r.error)
    ensures r.Err? ==> exists g, i :: FirstRowFailure(inp, enc, isCat, g, i, r.error)
  {
    var lists: seq<seq<Matrix>> := seq(|inp.groups|, _ => []);
    var i := 0;
    while i < |inp.groups[0].1|
      invariant i <= |inp.groups[0].1| && Collected(inp, enc, isCat, lists, i)
      invariant forall g, j :: 0 <= g < |inp.groups| && 0 <= j < i ==> GroupRow(inp, enc, isCat, g, j).Ok?
    {
      r := AppendRows(inp, enc, isCat, lists, i);
      if r.Err? {
        var g :| 0 <= g < |inp.groups| && GroupRow(inp, enc, isCat, g, i) == Err(r.error)
                 && forall h :: 0 <= h < g ==> GroupRow(inp, enc, isCat, h, i).Ok?;
        assert FirstRowFailure(inp, enc, isCat, g, i, r.error);
        return;
      }
      lists := r.value;
      i := i + 1;
    }
    CollectedRows(inp, enc, isCat, lists);
    return Ok(lists);
  }

  /** `m` is `rows` stacked, each contributing its one row, then padded with
      rows of `nullValue` up to `maxLength` rows. */
  ghost predicate PaddedStack(rows: seq<Matrix>, maxLength: int, nullValue: real, m: Matrix)
    requires |rows| > 0
  {
    && m.Rect()
    && m.width == rows[0].width
    && |m.rows| == (if |rows| < maxLength then maxLength else |rows|)
    && (forall i :: 0 <= i < |rows| ==> rows[i].rows == [m.rows[i]])
    && (forall i :: |rows| <= i < |m.rows| ==> m.rows[i] == seq(m.width, _ => nullValue))
  }

  /** All of `rows` are as wide as the first. */
  ghost predicate SameWidth(rows: seq<Matrix>) {
    forall i :: 0 <= i < |rows| ==> rows[i].width == rows[0].width
  }

  /** One-row matrices concatenate exactly when there is at least one and
      they share a width, and padding the result stacks their rows. */
  lemma PadStack(rows: seq<Matrix>, maxLength: int, nullValue: real)
    requires forall i :: 0 <= i < |rows| ==> rows[i].Rect() && |rows[i].rows| == 1
    ensures Concatenate(rows).Ok? <==> |rows| > 0 && SameWidth(rows)
    ensures Concatenate(rows).Ok? ==>
      PaddedStack(rows, maxLength, nullValue, PadToMaxLength(Concatenate(rows).value, maxLength, nullValue))
  {
    if Concatenate(rows).Ok? {
      var m := Concatenate(rows).value;
      StackSingleRows(rows);
      StackRect(rows, rows[0].width);
      var p := PadToMaxLength(m, maxLength, nullValue);
      forall i | 0 <= i < |rows| ensures rows[i].rows == [p.rows[i]] {
        assert p.rows[i] == p.rows[..|m.rows|][i];
      }
    }
  }

  /** The perturbation-group comprehension over the first `upTo` groups, in
      group order: every list concatenated, then padded to `maxLength`; the
      first list that cannot be concatenated fails. */
  function AssembleGroups(names: seq<string>, lists: seq<seq<Matrix>>, maxLength: int, nullValue: real, upTo: nat)
    : (r: Result<Dict<Matrix>, Error>)
    requires upTo <= |names| == |lists|
    ensures r.Ok? <==> forall g :: 0 <= g < upTo ==> Concatenate(lists[g]).Ok?
    ensures r.Ok? ==> |r.value| == upTo
    ensures r.Ok? ==> forall g :: 0 <= g < upTo ==>
      r.value[g] == (names[g], PadToMaxLength(Concatenate(lists[g]).value, maxLength, nullValue))
    ensures r.Err? ==> r.error == NothingToConcatenate || r.error == ConcatenationMismatch
    ensures r.Err? ==> exists g :: 0 <= g < upTo && Concatenate(lists[g]) == Err(r.error)
  {
    if upTo == 0 then Ok([])
    else
      var init :- AssembleGroups(names, lists, maxLength, nullValue, upTo - 1);
      var m :- Concatenate(lists[upTo - 1]);
      Ok(init + [(names[upTo - 1], PadToMaxLength(m, maxLength, nullValue))])
  }

  /** Assembling one-row lists under distinct names succeeds exactly when
      every list is non-empty and of one width; each name then finds its own
      list stacked and padded. */
  lemma AssembledGroups(names: seq<string>, lists: seq<seq<Matrix>>, maxLength: int, nullValue: real)
    requires |names| == |lists| && forall i, j :: 0 <= i < j < |names| ==> names[i] != names[j]
    requires forall g, i :: 0 <= g < |lists| && 0 <= i < |lists[g]| ==> lists[g][i].Rect() && |lists[g][i].rows| == 1
    ensures var r := AssembleGroups(names, lists, maxLength, nullValue, |names|);
      && (r.Ok? <==> forall g :: 0 <= g < |lists| ==> |lists[g]| > 0 && SameWidth(lists[g]))
      && (r.Ok? ==> DistinctKeys(r.value) && Keys(r.value) == names)
      && (r.Ok? ==> forall g :: 0 <= g < |names| ==>
            Lookup(r.value, names[g]).Some? && PaddedStack(lists[g], maxLength, nullValue, Lookup(r.value, names[g]).value))
  {
    var r := AssembleGroups(names, lists, maxLength, nullValue, |names|);
    forall g | 0 <= g < |lists|
      ensures Concatenate(lists[g]).Ok? <==> |lists[g]| > 0 && SameWidth(lists[g])
      ensures Concatenate(lists[g]).Ok? ==>
        PaddedStack(lists[g], maxLength, nullValue, PadToMaxLength(Concatenate(lists[g]).value, maxLength, nullValue))
    {
      PadStack(lists[g], maxLength, nullValue);
    }
    if r.Ok? {
      forall g | 0 <= g < |names|
        ensures Lookup(r.value, names[g]) == Some(PadToMaxLength(Concatenate(lists[g]).value, maxLength, nullValue))
      {
        LookupAt(r.value, g);
      }
    }
  }

  /** Every sample covariate has an embedding. */
  ghost predicate SamplesOk(inp: Inputs)
    requires RepsWellFormed(inp.uns)
  {
    forall s :: s in inp.samples ==> SampleRow(inp, s).Ok?
  }

  /** Sample covariate `k` is the first whose row cannot be built, and `e`
      is its error. */
  ghost predicate FirstSampleFailure(inp: Inputs, k: int, e: Error)
    requires RepsWellFormed(inp.uns)
  {
    && 0 <= k < |inp.samples|
    && SampleRow(inp, inp.samples[k]) == Err(e)
    && forall j :: 0 <= j < k ==> SampleRow(inp, inp.samples[j]).Ok?
  }

  /** At most one sample covariate is the first to fail, so its error is
      determined. */
  lemma FirstSampleFailureUnique(inp: Inputs, k1: int, e1: Error, k2: int, e2: Error)
    requires RepsWellFormed(inp.uns) && FirstSampleFailure(inp, k1, e1) && FirstSampleFailure(inp, k2, e2)
    ensures k1 == k2 && e1 == e2
  {
  }

  /** The loop over the sample covariates, each embedding stored under its
      name. */
  method SampleEmbeddings(inp: Inputs) returns (r: Result<Dict<Matrix>, Error>)
    requires RepsWellFormed(inp.uns)
    ensures r.Ok? <==> SamplesOk(inp)
    ensures r.Ok? ==> DistinctKeys(r.value)
    ensures r.Ok? ==> forall k :: k in Keys(r.value) <==> k in inp.samples
    ensures r.Ok? ==> forall s :: s in inp.samples ==> Lookup(r.value, s) == Some(SampleRow(inp, s).value)
    ensures r.Err? ==> exists s :: s in inp.samples && SampleRow(inp, s) == Err(r.error)
    ensures r.Err? ==> exists k :: FirstSampleFailure(inp, k, r.error)
  {
    var emb: Dict<Matrix> := [];
    var i := 0;
    while i < |inp.samples|
      invariant i <= |inp.samples| && DistinctKeys(emb)
      invariant forall k :: k in Keys(emb) <==> k in inp.samples[..i]
      invariant forall s :: s in inp.samples[..i] ==> SampleRow(inp, s).Ok? && Lookup(emb, s) == Some(SampleRow(inp, s).value)
      invariant forall j :: 0 <= j < i ==> SampleRow(inp, inp.samples[j]).Ok?
    {
      var s := inp.samples[i];
      var row := SampleRow(inp, s);
      if row.Err? {
        assert FirstSampleFailure(inp, i, row.error);
        return Err(row.error);
      }
      forall k ensures Lookup(Put(emb, s, row.value), k) == if k == s then Some(row.value) else Lookup(emb, k) {
        PutLookup(emb, s, row.value, k);
      }
      emb := Put(emb, s, row.value);
      assert inp.samples[..i + 1] == inp.samples[..i] + [s];
      i := i + 1;
    }
    assert inp.samples[..i] == inp.samples;
    return Ok(emb);
  }

  /** `d | s` for the group and sample embeddings: the groups' names in
      order followed by the new sample names, a sample's embedding winning
      over a group's of the same name. */
  lemma MergedEntries(groups: Groups, samples: seq<string>, d: Dict<Matrix>, s: Dict<Matrix>)
    requires DistinctKeys(d) && DistinctKeys(s) && Keys(d) == Keys(groups)
    requires forall k :: k in Keys(s) <==> k in samples
    ensures DistinctKeys(Union(d, s))
    ensures forall k :: k in Keys(Union(d, s)) <==> k in Keys(groups) || k in samples
    ensures |Union(d, s)| >= |groups| && Keys(Union(d, s))[..|groups|] == Keys(groups)
    ensures forall k :: Lookup(Union(d, s), k) == if k in samples then Lookup(s, k) else Lookup(d, k)
  {
    forall k ensures (k in Keys(Union(d, s)) <==> k in Keys(groups) || k in samples)
      && Lookup(Union(d, s), k) == (if k in samples then Lookup(s, k) else Lookup(d, k))
    {
      UnionLookup(d, s, k);
      LastValueDistinct(s, k);
    }
    UnionLookup(d, s, "");
  }

  /** Every group's rows can be built, at least one primary covariate
      exists, and each group's rows share a width. */
  ghost predicate GroupsOk(inp: Inputs, enc: Encoder, isCat: bool)
    requires inp.Valid()
  {
    && RowsOk(inp, enc, isCat)
    && |inp.groups[0].1| > 0
    && forall g :: 0 <= g < |inp.groups| ==> SameWidth(RowsOf(inp, enc, isCat, g))
  }

  /** The groups are consistent exactly when each collected list is
      non-empty and of one width. */
  lemma GroupsOkOfLists(inp: Inputs, enc: Encoder, isCat: bool, lists: seq<seq<Matrix>>)
    requires inp.Valid() && RowsOk(inp, enc, isCat)
    requires |lists| == |inp.groups| && forall g :: 0 <= g < |inp.groups| ==> lists[g] == RowsOf(inp, enc, isCat, g)
    ensures GroupsOk(inp, enc, isCat) <==> forall g :: 0 <= g < |lists| ==> |lists[g]| > 0 && SameWidth(lists[g])
  {
    assert |lists[0]| == |inp.groups[0].1|;
    if GroupsOk(inp, enc, isCat) {
      forall g | 0 <= g < |lists| ensures |lists[g]| > 0 && SameWidth(lists[g]) {
        assert lists[g] == RowsOf(inp, enc, isCat, g);
      }
    }
    if forall g :: 0 <= g < |lists| ==> |lists[g]| > 0 && SameWidth(lists[g]) {
      forall g | 0 <= g < |lists| ensures SameWidth(RowsOf(inp, enc, isCat, g)) {
        assert lists[g] == RowsOf(inp, enc, isCat, g);
      }
    }
  }

  /** Assembling the groups' rows succeeds exactly when the groups are
      consistent, and keeps the group names in order. */
  lemma GroupsOfLists(inp: Inputs, enc: Encoder, isCat: bool, lists: seq<seq<Matrix>>)
    requires inp.Valid() && RowsOk(inp, enc, isCat)
    requires |lists| == |inp.groups| && forall g :: 0 <= g < |inp.groups| ==> lists[g] == RowsOf(inp, enc, isCat, g)
    ensures var r := AssembleGroups(Keys(inp.groups), lists, inp.maxLength, inp.nullValue, |inp.groups|);
      && (r.Ok? <==> GroupsOk(inp, enc, isCat))
      && (r.Ok? ==> DistinctKeys(r.value) && Keys(r.value) == Keys(inp.groups))
  {
    GroupsOkOfLists(inp, enc, isCat, lists);
    AssembledGroups(Keys(inp.groups), lists, inp.maxLength, inp.nullValue);
  }

  /** Each group's name finds its rows stacked and padded. */
  lemma GroupEntriesOfLists(inp: Inputs, enc: Encoder, isCat: bool, lists: seq<seq<Matrix>>)
    requires inp.Valid() && RowsOk(inp, enc, isCat)
    requires |lists| == |inp.groups| && forall g :: 0 <= g < |inp.groups| ==> lists[g] == RowsOf(inp, enc, isCat, g)
    requires AssembleGroups(Keys(inp.groups), lists, inp.maxLength, inp.nullValue, |inp.groups|).Ok?
    ensures var d := AssembleGroups(Keys(inp.groups), lists, inp.maxLength, inp.nullValue, |inp.groups|).value;
      forall g :: 0 <= g < |inp.groups| ==>
        Lookup(d, inp.groups[g].0).Some? &&
        PaddedStack(RowsOf(inp, enc, isCat, g), inp.maxLength, inp.nullValue, Lookup(d, inp.groups[g].0).value)
  {
    var names := Keys(inp.groups);
    AssembledGroups(names, lists, inp.maxLength, inp.nullValue);
    var d := AssembleGroups(names, lists, inp.maxLength, inp.nullValue, |inp.groups|).value;
    forall g | 0 <= g < |inp.groups|
      ensures Lookup(d, inp.groups[g].0).Some?
      ensures PaddedStack(RowsOf(inp, enc, isCat, g), inp.maxLength, inp.nullValue, Lookup(d, inp.groups[g].0).value)
    {
      assert names[g] == inp.groups[g].0;
      assert lists[g] == RowsOf(inp, enc, isCat, g);
    }
  }

  /** `e` is what the group half raises: the error of the first row that
      cannot be built; otherwise, with no primary covariate, the error of
      concatenating nothing; otherwise the width mismatch. */
  ghost predicate GroupsRaise(inp: Inputs, enc: Encoder, isCat: bool, e: Error)
    requires inp.Valid()
  {
    if !RowsOk(inp, enc, isCat) then
      exists g, i :: FirstRowFailure(inp, enc, isCat, g, i, e)
    else if |inp.groups[0].1| == 0 then e == NothingToConcatenate
    else e == ConcatenationMismatch
  }

  /** The group half of the embedding: the rows collected for every group,
      then each group's rows concatenated and padded. */
  method GroupEmbeddings(inp: Inputs, enc: Encoder, isCat: bool) returns (r: Result<Dict<Matrix>, Error>)
    requires inp.Valid()
    ensures r.Ok? <==> GroupsOk(inp, enc, isCat)
    ensures r.Ok? ==> DistinctKeys(r.value) && Keys(r.value) == Keys(inp.groups)
    ensures r.Ok? ==> forall g :: 0 <= g < |inp.groups| ==>
      Lookup(r.value, inp.groups[g].0).Some? &&
      PaddedStack(RowsOf(inp, enc, isCat, g), inp.maxLength, inp.nullValue, Lookup(r.value, inp.groups[g].0).value)
    ensures r.Err? ==> GroupsRaise(inp, enc, isCat, r.error)
  {
    var lists := CollectRows(inp, enc, isCat);
    if lists.Err? {
      return Err(lists.error);
    }
    GroupsOfLists(inp, enc, isCat, lists.value);
    r := AssembleGroups(Keys(inp.groups), lists.value, inp.maxLength, inp.nullValue, |inp.groups|);
    if r.Ok? {
      GroupEntriesOfLists(inp, enc, isCat, lists.value);
    } else {
      var g :| 0 <= g < |inp.groups| && Concatenate(lists.value[g]) == Err(r.error);
      assert lists.value[g] == RowsOf(inp, enc, isCat, g);
    }
  }

  /** `e` is what `_get_perturbation_covariates` raises: the unpacking
      error for an encoder that is not a pair, then what the group half
      raises, then the error of the first sample covariate whose row cannot
      be built. */
  ghost predicate Raises(inp: Inputs, enc: PrimaryEncoder, e: Error)
    requires inp.Valid()
  {
    if !enc.EncoderPair? then e == EncoderUnpack
    else if !GroupsOk(inp, enc.encoder, enc.isCategorical) then GroupsRaise(inp, enc.encoder, enc.isCategorical, e)
    else exists k :: FirstSampleFailure(inp, k, e)
  }

  /** The error the group half raises is determined by the inputs. */
  lemma GroupsRaiseUnique(inp: Inputs, enc: Encoder, isCat: bool, e1: Error, e2: Error)
    requires inp.Valid() && GroupsRaise(inp, enc, isCat, e1) && GroupsRaise(inp, enc, isCat, e2)
    ensures e1 == e2
  {
    if !RowsOk(inp, enc, isCat) {
      var g1, i1 :| FirstRowFailure(inp, enc, isCat, g1, i1, e1);
      var g2, i2 :| FirstRowFailure(inp, enc, isCat, g2, i2, e2);
      FirstRowFailureUnique(inp, enc, isCat, g1, i1, e1, g2, i2, e2);
    }
  }

  /** The error raised is determined by the inputs. */
  lemma RaisesUnique(inp: Inputs, enc: PrimaryEncoder, e1: Error, e2: Error)
    requires inp.Valid() && Raises(inp, enc, e1) && Raises(inp, enc, e2)
    ensures e1 == e2
  {
    if enc.EncoderPair? {
      if !GroupsOk(inp, enc.encoder, enc.isCategorical) {
        GroupsRaiseUnique(inp, enc.encoder, enc.isCategorical, e1, e2);
      } else {
        var k1 :| FirstSampleFailure(inp, k1, e1);
        var k2 :| FirstSampleFailure(inp, k2, e2);
        FirstSampleFailureUnique(inp, k1, e1, k2, e2);
      }
    }
  }

  /** `_get_perturbation_covariates`: the `(encoder, is_categorical)` pair is
      unpacked (any other encoder shape fails), then the group embeddings
      are built and merged with the sample embeddings, a sample covariate's
      embedding replacing a group's of the same name. */
  method GetPerturbationCovariates(inp: Inputs, enc: PrimaryEncoder) returns (r: Result<Dict<Matrix>, Error>)
    requires inp.Valid()
    ensures !enc.EncoderPair? ==> r == Err(EncoderUnpack)
    ensures enc.EncoderPair? ==> (r.Ok? <==> GroupsOk(inp, enc.encoder, enc.isCategorical) && SamplesOk(inp))
    ensures r.Ok? ==> DistinctKeys(r.value)
    ensures r.Ok? ==> forall k :: k in Keys(r.value) <==> k in Keys(inp.groups) || k in inp.samples
    ensures r.Ok? ==> |r.value| >= |inp.groups| && Keys(r.value)[..|inp.groups|] == Keys(inp.groups)
    ensures r.Ok? ==> forall g :: 0 <= g < |inp.groups| && inp.groups[g].0 !in inp.samples ==>
      Lookup(r.value, inp.groups[g].0).Some? &&
      PaddedStack(RowsOf(inp, enc.encoder, enc.isCategorical, g), inp.maxLength, inp.nullValue, Lookup(r.value, inp.groups[g].0).value)
    ensures r.Ok? ==> forall s :: s in inp.samples ==> Lookup(r.value, s) == Some(SampleRow(inp, s).value)
    ensures r.Err? ==> Raises(inp, enc, r.error)
  {
    if !enc.EncoderPair? {
      return Err(EncoderUnpack);
    }
    var groupEmb := GroupEmbeddings(inp, enc.encoder, enc.isCategorical);
    if groupEmb.Err? {
      return Err(groupEmb.error);
    }
    var sampleEmb := SampleEmbeddings(inp);
    if sampleEmb.Err? {
      return Err(sampleEmb.error);
    }
    MergedEntries(inp.groups, inp.samples, groupEmb.value, sampleEmb.value);
    r := Ok(Union(groupEmb.value, sampleEmb.value));
  }
}
