/** Covariate verification and covariate bookkeeping of `PerturbationData`
    (data.py:85-253, 278-286): the validators, the effective combination
    length, the alignment of linked groups with the primary group, the group
    numbering, the numeric/categorical classification and the choice of the
    primary encoder. */
module Covariates {
  import opened Wrappers
  import opened Tables
  import opened Dicts
  import opened Shapes

  /** A covariate slot: a column of `adata.obs`, or `None` for "no covariate
      at this slot". */
  type Covariate = Option<string>

  /** The perturbation covariate groups in declaration order (group name to
      its covariates); the first group is the primary group. */
  type Groups = Dict<seq<Covariate>>

  /** A value stored in `adata.uns`: a representation dictionary (condition
      value to array) or anything else. */
  datatype UnsEntry = RepDict(reps: map<Cell, Array>) | OtherEntry

  type Uns = map<string, UnsEntry>

  /** A one-hot encoder, known by the categories it was fitted on; its
      `transform` is a parameter of the embedding construction. */
  datatype Encoder = Encoder(categories: set<Cell>)

  /** The three shapes `_get_primary_covar_encoder` returns: `None`, a bare
      encoder, or an `(encoder, is_categorical)` pair. */
  datatype PrimaryEncoder = NoEncoder | BareEncoder(encoder: Encoder) | EncoderPair(encoder: Encoder, isCategorical: bool)

  // ---------------------------------------------------------------- control

  /** Number of `true` entries. */
  function CountTrue(s: seq<bool>): (n: nat)
    ensures n <= |s|
    ensures n == 0 <==> forall i :: 0 <= i < |s| ==> !s[i]
  {
    if s == [] then 0 else CountTrue(s[..|s| - 1]) + (if s[|s| - 1] then 1 else 0)
  }

  /** `_verify_control_data`: the control column must exist, convert to
      booleans and mark at least one cell. The column converted to booleans
      is returned instead of being written back into `adata.obs`. */
  function VerifyControlData(obs: Obs, key: string, toBool: Cell -> Option<bool>): (r: Result<seq<bool>, Error>)
    ensures key !in obs.columns ==> r == Err(ControlColumnNotFound(key))
    ensures r.Ok? <==> key in obs.columns
                       && (forall c :: 0 <= c < |obs.rows| ==> toBool(Get(obs.rows[c], key)).Some?)
                       && (exists c :: 0 <= c < |obs.rows| && toBool(Get(obs.rows[c], key)) == Some(true))
    ensures r.Ok? ==> |r.value| == |obs.rows|
                      && forall c :: 0 <= c < |obs.rows| ==> toBool(Get(obs.rows[c], key)) == Some(r.value[c])
  {
    if key !in obs.columns then Err(ControlColumnNotFound(key))
    else if exists c :: 0 <= c < |obs.rows| && toBool(Get(obs.rows[c], key)).None? then Err(ControlNotBoolean(key))
    else
      var column := seq(|obs.rows|, c requires 0 <= c < |obs.rows| => toBool(Get(obs.rows[c], key)).value);
      assert forall c :: 0 <= c < |obs.rows| ==> toBool(Get(obs.rows[c], key)) == Some(column[c]);
      if CountTrue(column) == 0 then Err(NoControlCells) else Ok(column)
  }

  // ------------------------------------------------------------- validators

  /** Every named (non-`None`) covariate is a column. */
  ghost predicate ColumnsExist(columns: set<string>, covars: seq<Covariate>) {
    forall i :: 0 <= i < |covars| && covars[i].Some? ==> covars[i].value in columns
  }

  /** `_verify_covariate_data`: fails on the first named covariate that is not
      a column; `None` placeholders are skipped. */
  function VerifyCovariateData(columns: set<string>, covars: seq<Covariate>): (r: Outcome<Error>)
    ensures r.Pass? <==> ColumnsExist(columns, covars)
    ensures r.Fail? ==> exists i :: 0 <= i < |covars| && covars[i].Some? && covars[i].value !in columns
                                   && r.error == CovariateNotFound(covars[i].value)
  {
    if covars == [] then Pass
    else if covars[0].Some? && covars[0].value !in columns then Fail(CovariateNotFound(covars[0].value))
    else
      var r := VerifyCovariateData(columns, covars[1..]);
      assert forall i :: 1 <= i < |covars| ==> covars[i] == covars[1..][i - 1];
      r
  }

  function VerifyGroups(columns: set<string>, groups: Groups): (r: Outcome<Error>)
    ensures r.Pass? <==> forall g :: 0 <= g < |groups| ==> |groups[g].1| > 0 && ColumnsExist(columns, groups[g].1)
  {
    if groups == [] then Pass
    else if |groups[0].1| == 0 then Fail(EmptyCovariateGroup(groups[0].0))
    else
      match VerifyCovariateData(columns, groups[0].1)
      case Fail(e) => Fail(e)
      case Pass =>
        var r := VerifyGroups(columns, groups[1..]);
        assert forall g :: 1 <= g < |groups| ==> groups[g] == groups[1..][g - 1];
        r
  }

  /** `_verify_perturbation_covariates`: at least one group, no empty group,
      and every named covariate of every group a column. */
  function VerifyPerturbationCovariates(columns: set<string>, groups: Groups): (r: Outcome<Error>)
    ensures groups == [] ==> r == Fail(NoPerturbationCovariates)
    ensures r.Pass? <==> |groups| > 0 && forall g :: 0 <= g < |groups| ==> |groups[g].1| > 0 && ColumnsExist(columns, groups[g].1)
  {
    if groups == [] then Fail(NoPerturbationCovariates) else VerifyGroups(columns, groups)
  }

  function AsCovariates(names: seq<string>): (cs: seq<Covariate>)
    ensures |cs| == |names| && forall i :: 0 <= i < |names| ==> cs[i] == Some(names[i])
  {
    seq(|names|, i requires 0 <= i < |names| => Some(names[i]))
  }

  /** `_verify_sample_covariates`: every sample covariate is a column. */
  function VerifySampleCovariates(columns: set<string>, names: seq<string>): (r: Outcome<Error>)
    ensures r.Pass? <==> forall i :: 0 <= i < |names| ==> names[i] in columns
    ensures r.Fail? ==> exists i :: 0 <= i < |names| && names[i] !in columns && r.error == CovariateNotFound(names[i])
  {
    VerifyCovariateData(columns, AsCovariates(names))
  }

  /** `_verify_split_covariates`: every split covariate is a column. */
  function VerifySplitCovariates(columns: set<string>, names: seq<string>): (r: Outcome<Error>)
    ensures r.Pass? <==> forall i :: 0 <= i < |names| ==> names[i] in columns
    ensures r.Fail? ==> exists i :: 0 <= i < |names| && names[i] !in columns && r.error == CovariateNotFound(names[i])
  {
    VerifyCovariateData(columns, AsCovariates(names))
  }

  /** `_verify_covariate_reps`: each representation key names a covariate
      group, and the `adata.uns` entry it points to exists and is a
      dictionary. */
  function VerifyCovariateReps(uns: Uns, reps: Dict<string>, covariates: seq<string>): (r: Outcome<Error>)
    ensures r.Pass? <==> forall i :: 0 <= i < |reps| ==>
      reps[i].0 in covariates && reps[i].1 in uns && uns[reps[i].1].RepDict?
  {
    if reps == [] then Pass
    else if reps[0].0 !in covariates then Fail(RepresentationKeyNotCovariate(reps[0].0))
    else if reps[0].1 !in uns then Fail(RepresentationNotInUns(reps[0].1))
    else if !uns[reps[0].1].RepDict? then Fail(RepresentationNotDict(reps[0].1))
    else
      var r := VerifyCovariateReps(uns, reps[1..], covariates);
      assert forall i :: 1 <= i < |reps| ==> reps[i] == reps[1..][i - 1];
      r
  }

  // ----------------------------------------------------- combination length

  /** The longest group. */
  function MaxGroupLength(groups: Groups): (n: nat)
    requires |groups| > 0
    ensures forall g :: 0 <= g < |groups| ==> |groups[g].1| <= n
    ensures exists g :: 0 <= g < |groups| && |groups[g].1| == n
  {
    if |groups| == 1 then |groups[0].1|
    else
      var rest := MaxGroupLength(groups[1..]);
      assert forall g :: 1 <= g < |groups| ==> groups[g] == groups[1..][g - 1];
      if |groups[0].1| >= rest then |groups[0].1| else rest
  }

  /** `_get_max_combination_length`: the longest group when nothing is
      provided, otherwise the larger of the provided value and the longest
      group. `max()` of no groups raises. */
  function GetMaxCombinationLength(groups: Groups, provided: Option<int>): (r: Result<int, Error>)
    ensures r.Ok? <==> |groups| > 0
    ensures r.Err? ==> r.error == EmptyMax
    ensures r.Ok? ==> forall g :: 0 <= g < |groups| ==> |groups[g].1| <= r.value
    ensures r.Ok? && provided.None? ==> exists g :: 0 <= g < |groups| && |groups[g].1| == r.value
    ensures r.Ok? && provided.Some? ==> r.value >= provided.value
    ensures r.Ok? && provided.Some? ==> r.value == provided.value || exists g :: 0 <= g < |groups| && |groups[g].1| == r.value
  {
    if |groups| == 0 then Err(EmptyMax)
    else
      var observed := MaxGroupLength(groups);
      match provided
      case None => Ok(observed)
      case Some(p) => if p < observed then Ok(observed) else Ok(p)
  }

  // ----------------------------------------------------- linked covariates

  /** The group lengths, in group order. */
  function Lengths(groups: Groups): (ls: seq<nat>)
    ensures |ls| == |groups| && forall g :: 0 <= g < |groups| ==> ls[g] == |groups[g].1|
  {
    seq(|groups|, g requires 0 <= g < |groups| => |groups[g].1|)
  }

  lemma SingletonLengths(ls: seq<nat>)
    ensures |set i | 0 <= i < |ls| :: ls[i]| == 1 <==> |ls| > 0 && forall i :: 0 <= i < |ls| ==> ls[i] == ls[0]
  {
    var s := set i | 0 <= i < |ls| :: ls[i];
    if |ls| > 0 && forall i :: 0 <= i < |ls| ==> ls[i] == ls[0] {
      assert s == {ls[0]};
    }
    if |s| == 1 {
      assert ls[0] in s;
      forall i | 0 <= i < |ls| ensures ls[i] == ls[0] {
        assert ls[i] in s;
        if ls[i] != ls[0] {
          assert {ls[0], ls[i]} <= s;
          assert |{ls[0], ls[i]}| == 2;
          SubsetCard({ls[0], ls[i]}, s);
        }
      }
    }
  }

  lemma SubsetCard(a: set<nat>, b: set<nat>)
    requires a <= b
    ensures |a| <= |b|
  {
    assert b == a + (b - a);
  }

  /** `_verify_linked_covars`: the set of group lengths must hold exactly one
      length, so all groups align position by position; no groups at all
      fails too. */
  function VerifyLinkedCovars(groups: Groups): (r: Outcome<Error>)
    ensures r.Pass? <==> |groups| > 0 && forall g :: 0 <= g < |groups| ==> |groups[g].1| == |groups[0].1|
    ensures r.Fail? ==> r.error == GroupLengthMismatch(Lengths(groups))
  {
    var lengths := Lengths(groups);
    SingletonLengths(lengths);
    if |set i | 0 <= i < |lengths| :: lengths[i]| != 1 then Fail(GroupLengthMismatch(lengths)) else Pass
  }

  /** No later position holds the same value as position `i`. */
  ghost predicate LastOccurrence<T>(s: seq<T>, i: int)
    requires 0 <= i < |s|
  {
    forall j :: i < j < |s| ==> s[j] != s[i]
  }

  /** The names of the linked groups before `upTo`: every group after the
      first. */
  function LinkedNames(groups: Groups, upTo: int): (r: set<string>)
    requires upTo <= |groups|
    ensures forall h :: 1 <= h < upTo ==> groups[h].0 in r
  {
    set h | 1 <= h < upTo :: groups[h].0
  }

  /** Primary covariate to `{linked group name: linked covariate}`. */
  type Links = map<Covariate, map<string, Covariate>>

  /** What `_get_linked_covariates` returns: every primary covariate is a key,
      and each maps every linked group's name. */
  ghost predicate LinkedShape(groups: Groups, ptl: Links)
    requires |groups| > 0
  {
    && (forall k :: k in ptl <==> k in groups[0].1)
    && (forall k :: k in ptl ==> ptl[k].Keys == LinkedNames(groups, |groups|))
  }

  /** All groups have the primary group's length. */
  ghost predicate Aligned(groups: Groups) {
    |groups| > 0 && forall g :: 0 <= g < |groups| ==> |groups[g].1| == |groups[0].1|
  }

  /** The starting dictionary `{k: {} for k in primary}`. */
  function EmptyLinks(primary: seq<Covariate>): (r: Links)
    ensures forall k :: k in r <==> k in primary
    ensures forall k :: k in r ==> r[k] == map[]
  {
    map k | k in primary :: map[]
  }

  /** The dictionary after writing `ptl[primary[i]][name] := covars[i]` for
      every position `i`, in order. */
  function Zip(ptl: Links, primary: seq<Covariate>, name: string, covars: seq<Covariate>): (r: Links)
    requires |covars| == |primary|
    requires forall k :: k in primary ==> k in ptl
    ensures forall k :: k in r <==> k in ptl
    decreases |primary|
  {
    if primary == [] then ptl
    else
      var last := |primary| - 1;
      var m := Zip(ptl, primary[..last], name, covars[..last]);
      m[primary[last] := m[primary[last]][name := covars[last]]]
  }

  /** Writing one linked group adds its name to the inner dictionary of every
      primary covariate and leaves the other inner dictionaries alone. */
  lemma {:induction false} ZipKeys(ptl: Links, primary: seq<Covariate>, name: string, covars: seq<Covariate>, k: Covariate)
    requires |covars| == |primary|
    requires forall k :: k in primary ==> k in ptl
    requires k in ptl
    ensures Zip(ptl, primary, name, covars)[k].Keys == if k in primary then ptl[k].Keys + {name} else ptl[k].Keys
    decreases |primary|
  {
    if primary != [] {
      var last := |primary| - 1;
      ZipKeys(ptl, primary[..last], name, covars[..last], k);
      assert primary == primary[..last] + [primary[last]];
    }
  }

  /** Writing one linked group leaves every entry under another name alone. */
  lemma {:induction false} ZipOther(ptl: Links, primary: seq<Covariate>, name: string, covars: seq<Covariate>, k: Covariate, other: string)
    requires |covars| == |primary|
    requires forall k :: k in primary ==> k in ptl
    requires k in ptl && other in ptl[k] && other != name
    ensures other in Zip(ptl, primary, name, covars)[k]
    ensures Zip(ptl, primary, name, covars)[k][other] == ptl[k][other]
    decreases |primary|
  {
    if primary != [] {
      var last := |primary| - 1;
      ZipOther(ptl, primary[..last], name, covars[..last], k, other);
    }
  }

  /** The entry written for a primary covariate is the linked covariate at
      its last position. */
  lemma {:induction false} ZipValue(ptl: Links, primary: seq<Covariate>, name: string, covars: seq<Covariate>, j: nat)
    requires |covars| == |primary|
    requires forall k :: k in primary ==> k in ptl
    requires j < |primary| && LastOccurrence(primary, j)
    ensures name in Zip(ptl, primary, name, covars)[primary[j]]
    ensures Zip(ptl, primary, name, covars)[primary[j]][name] == covars[j]
    decreases |primary|
  {
    var last := |primary| - 1;
    if j < last {
      assert primary[last] != primary[j];
      assert LastOccurrence(primary[..last], j);
      ZipValue(ptl, primary[..last], name, covars[..last], j);
    }
  }

  /** The dictionary after the linked groups `1 .. upTo-1` have been written. */
  function LinkAll(groups: Groups, upTo: nat): (r: Links)
    requires Aligned(groups) && 1 <= upTo <= |groups|
    ensures forall k :: k in r <==> k in groups[0].1
  {
    if upTo == 1 then EmptyLinks(groups[0].1)
    else Zip(LinkAll(groups, upTo - 1), groups[0].1, groups[upTo - 1].0, groups[upTo - 1].1)
  }

  lemma LinkedNamesStep(groups: Groups, upTo: nat)
    requires 1 <= upTo <= |groups|
    ensures upTo == 1 ==> LinkedNames(groups, upTo) == {}
    ensures upTo > 1 ==> LinkedNames(groups, upTo) == LinkedNames(groups, upTo - 1) + {groups[upTo - 1].0}
  {
    if upTo > 1 {
      var a := LinkedNames(groups, upTo);
      var b := LinkedNames(groups, upTo - 1) + {groups[upTo - 1].0};
      forall x | x in a ensures x in b {
        var h :| 1 <= h < upTo && groups[h].0 == x;
        if h < upTo - 1 {
          assert x in LinkedNames(groups, upTo - 1);
        }
      }
    }
  }

  /** Every primary covariate maps exactly the names of the groups written. */
  lemma {:induction false} LinkAllKeys(groups: Groups, upTo: nat, k: Covariate)
    requires Aligned(groups) && 1 <= upTo <= |groups| && k in groups[0].1
    ensures k in LinkAll(groups, upTo)
    ensures LinkAll(groups, upTo)[k].Keys == LinkedNames(groups, upTo)
  {
    if upTo > 1 {
      LinkAllKeys(groups, upTo - 1, k);
      ZipKeys(LinkAll(groups, upTo - 1), groups[0].1, groups[upTo - 1].0, groups[upTo - 1].1, k);
    }
    LinkedNamesStep(groups, upTo);
  }

  /** The entry the last written group leaves for the primary covariate at
      its last position `i` is that group's covariate at `i`. */
  lemma LinkAllNewest(groups: Groups, upTo: nat, i: nat)
    requires Aligned(groups) && 2 <= upTo <= |groups| && i < |groups[0].1| && LastOccurrence(groups[0].1, i)
    ensures groups[upTo - 1].0 in LinkAll(groups, upTo)[groups[0].1[i]]
    ensures LinkAll(groups, upTo)[groups[0].1[i]][groups[upTo - 1].0] == groups[upTo - 1].1[i]
  {
    ZipValue(LinkAll(groups, upTo - 1), groups[0].1, groups[upTo - 1].0, groups[upTo - 1].1, i);
  }

  /** Writing a group leaves the entries under the other names alone. */
  lemma LinkAllKeep(groups: Groups, upTo: nat, k: Covariate, other: string, v: Covariate)
    requires Aligned(groups) && 2 <= upTo <= |groups| && k in groups[0].1 && other != groups[upTo - 1].0
    requires other in LinkAll(groups, upTo - 1)[k] && LinkAll(groups, upTo - 1)[k][other] == v
    ensures other in LinkAll(groups, upTo)[k] && LinkAll(groups, upTo)[k][other] == v
  {
    ZipOther(LinkAll(groups, upTo - 1), groups[0].1, groups[upTo - 1].0, groups[upTo - 1].1, k, other);
  }

  /** With distinct group names, linked group `h`'s entry for the primary
      covariate at its last position `i` is group `h`'s covariate at `i`. */
  lemma {:induction false} LinkAllValue(groups: Groups, upTo: nat, i: nat, h: nat)
    requires Aligned(groups) && DistinctKeys(groups)
    requires 1 <= h < upTo <= |groups| && i < |groups[0].1| && LastOccurrence(groups[0].1, i)
    ensures groups[h].0 in LinkAll(groups, upTo)[groups[0].1[i]] && LinkAll(groups, upTo)[groups[0].1[i]][groups[h].0] == groups[h].1[i]
  {
    if h < upTo - 1 {
      LinkAllValue(groups, upTo - 1, i, h);
      assert groups[h].0 != groups[upTo - 1].0;
      LinkAllKeep(groups, upTo, groups[0].1[i], groups[h].0, groups[h].1[i]);
    } else {
      LinkAllNewest(groups, upTo, i);
    }
  }

  /** One pass of the inner loop of `_get_linked_covariates`: zip the primary
      covariates with one linked group's covariates and record each pair under
      the linked group's name. */
  method LinkGroup(ptl: Links, primary: seq<Covariate>, name: string, covars: seq<Covariate>) returns (r: Links)
    requires |covars| == |primary|
    requires forall k :: k in primary ==> k in ptl
    ensures r == Zip(ptl, primary, name, covars)
  {
    r := ptl;
    var i := 0;
    while i < |primary|
      invariant 0 <= i <= |primary|
      invariant r == Zip(ptl, primary[..i], name, covars[..i])
    {
      assert primary[..i + 1][..i] == primary[..i] && covars[..i + 1][..i] == covars[..i];
      r := r[primary[i] := r[primary[i]][name := covars[i]]];
      i := i + 1;
    }
    assert primary[..i] == primary && covars[..i] == covars;
  }

  /** `_get_linked_covariates`: after `_verify_linked_covars`, map each
      primary covariate to `{linked group: that group's covariate at the
      same position}`. A primary covariate listed twice keeps the entries of
      its last position, as the dictionary writes do. */
  method GetLinkedCovariates(groups: Groups) returns (r: Result<Links, Error>)
    requires DistinctKeys(groups)
    ensures r.Err? <==> VerifyLinkedCovars(groups).Fail?
    ensures r.Err? ==> r.error == GroupLengthMismatch(Lengths(groups))
    ensures r.Ok? ==> |groups| > 0 && LinkedShape(groups, r.value)
    ensures r.Ok? ==> forall i, h :: 0 <= i < |groups[0].1| && 1 <= h < |groups| && LastOccurrence(groups[0].1, i) ==>
      r.value[groups[0].1[i]][groups[h].0] == groups[h].1[i]
  {
    var verdict := VerifyLinkedCovars(groups);
    if verdict.Fail? {
      return Err(verdict.error);
    }
    var primary := groups[0].1;
    var ptl := EmptyLinks(primary);
    var g := 1;
    while g < |groups|
      invariant 1 <= g <= |groups|
      invariant ptl == LinkAll(groups, g)
    {
      ptl := LinkGroup(ptl, primary, groups[g].0, groups[g].1);
      g := g + 1;
    }
    forall k | k in ptl
      ensures ptl[k].Keys == LinkedNames(groups, |groups|)
    {
      LinkAllKeys(groups, g, k);
    }
    forall i, h | 0 <= i < |primary| && 1 <= h < |groups| && LastOccurrence(primary, i)
      ensures groups[h].0 in ptl[primary[i]] && ptl[primary[i]][groups[h].0] == groups[h].1[i]
    {
      LinkAllValue(groups, g, i, h);
    }
    return Ok(ptl);
  }

  // --------------------------------------------------------- group numbers

  /** `_get_idx_to_covariate`: number the covariate groups in order, and the
      inverse map from group name back to its number. */
  function GetIdxToCovariate(names: seq<string>): (r: (map<int, string>, map<string, int>))
    requires forall i, j :: 0 <= i < j < |names| ==> names[i] != names[j]
    ensures forall i :: i in r.0 <==> 0 <= i < |names|
    ensures forall k :: k in r.1 <==> k in names
    ensures forall i :: 0 <= i < |names| ==> r.0[i] == names[i] && r.1[names[i]] == i
    ensures forall k :: k in r.1 ==> 0 <= r.1[k] < |names| && r.0[r.1[k]] == k
  {
    var idxToCovar := map i | 0 <= i < |names| :: names[i];
    var covarToIdx := map k | k in names :: IndexOf(names, k);
    forall i | 0 <= i < |names| ensures covarToIdx[names[i]] == i {
      IndexOfUnique(names, i);
    }
    (idxToCovar, covarToIdx)
  }

  // -------------------------------------------------------- covariate type

  /** A column whose every value parses as a float: `astype(float)` works. */
  predicate IsNumericColumn(obs: Obs, column: string, toFloat: Cell -> Option<real>) {
    forall c :: 0 <= c < |obs.rows| ==> toFloat(Get(obs.rows[c], column)).Some?
  }

  /** How `_check_covariate_type` classifies one covariate: `None` when
      `adata.obs[covariate]` raises, otherwise whether it is categorical. */
  function ColumnKind(obs: Obs, cov: Covariate, toFloat: Cell -> Option<real>): Option<bool> {
    if cov.None? || cov.value !in obs.columns then None
    else Some(!IsNumericColumn(obs, cov.value, toFloat))
  }

  /** The group can be classified: at least one covariate, every covariate a
      column, and all numeric or all categorical. */
  ghost predicate Classifiable(obs: Obs, covars: seq<Covariate>, toFloat: Cell -> Option<real>) {
    && |covars| > 0
    && (forall i :: 0 <= i < |covars| ==> ColumnKind(obs, covars[i], toFloat).Some?)
    && (forall i :: 0 <= i < |covars| ==> ColumnKind(obs, covars[i], toFloat) == ColumnKind(obs, covars[0], toFloat))
  }

  /** The position of the first covariate that `adata.obs[covariate]`
      cannot read, or `|covars|` when it reads them all. */
  function FirstUnreadable(obs: Obs, covars: seq<Covariate>, toFloat: Cell -> Option<real>): (i: nat)
    ensures i <= |covars|
    ensures forall j :: 0 <= j < i ==> ColumnKind(obs, covars[j], toFloat).Some?
    ensures i < |covars| ==> ColumnKind(obs, covars[i], toFloat).None?
  {
    if covars == [] then 0
    else if ColumnKind(obs, covars[0], toFloat).None? then 0
    else 1 + FirstUnreadable(obs, covars[1..], toFloat)
  }

  /** What `_check_covariate_type` raises for a group it cannot classify:
      the key error of the first covariate that is not a column, else the
      error of `max` over no covariate, else the mixed-type error naming the
      last covariate. */
  function CovariateTypeError(obs: Obs, covars: seq<Covariate>, toFloat: Cell -> Option<real>): Error {
    var i := FirstUnreadable(obs, covars, toFloat);
    if i < |covars| then ColumnKeyError(covars[i])
    else if covars == [] then EmptyMax
    else
      assert ColumnKind(obs, covars[|covars| - 1], toFloat).Some?;
      MixedCovariateTypes(covars[|covars| - 1].value)
  }

  /** `_check_covariate_type`: classify each covariate of a group as numeric
      (it parses as float) or categorical, then require that they agree;
      returns whether the group is categorical. */
  method CheckCovariateType(obs: Obs, covars: seq<Covariate>, toFloat: Cell -> Option<real>) returns (r: Result<bool, Error>)
    ensures r.Ok? <==> Classifiable(obs, covars, toFloat)
    ensures r.Ok? ==> ColumnKind(obs, covars[0], toFloat) == Some(r.value)
    ensures r.Err? && (exists i :: 0 <= i < |covars| && ColumnKind(obs, covars[i], toFloat).None?) ==>
      exists i :: 0 <= i < |covars| && ColumnKind(obs, covars[i], toFloat).None? && r.error == ColumnKeyError(covars[i])
    ensures r.Err? && |covars| == 0 ==> r.error == EmptyMax
    ensures r.Err? ==> r.error == CovariateTypeError(obs, covars, toFloat)
  {
    var colIsCat: seq<bool> := [];
    var i := 0;
    while i < |covars|
      invariant 0 <= i <= |covars|
      invariant |colIsCat| == i
      invariant forall j :: 0 <= j < i ==> ColumnKind(obs, covars[j], toFloat) == Some(colIsCat[j])
    {
      var cov := covars[i];
      if cov.None? || cov.value !in obs.columns {
        return Err(ColumnKeyError(cov));
      }
      colIsCat := colIsCat + [!IsNumericColumn(obs, cov.value, toFloat)];
      i := i + 1;
    }
    if |colIsCat| == 0 {
      return Err(EmptyMax);
    }
    var maxIsCat := true in colIsCat;
    var minIsCat := false !in colIsCat;
    if maxIsCat != minIsCat {
      return Err(MixedCovariateTypes(covars[|covars| - 1].value));
    }
    return Ok(maxIsCat);
  }

  // --------------------------------------------------------- primary encoder

  /** Every value found in the listed columns (`np.unique` of them). */
  function ValueSet(obs: Obs, covars: seq<Covariate>): set<Cell> {
    set c, i | 0 <= c < |obs.rows| && 0 <= i < |covars| && covars[i].Some? :: Get(obs.rows[c], covars[i].value)
  }

  /** The covariate names themselves, as categories. */
  function NameSet(covars: seq<Covariate>): set<Cell> {
    set i | 0 <= i < |covars| && covars[i].Some? :: Text(covars[i].value)
  }

  /** `_get_primary_covar_encoder`: classify the primary group (errors
      propagate), then return no encoder when the group has a representation,
      a bare encoder fitted on the observed values when it is categorical, and
      an `(encoder, False)` pair fitted on the covariate names when it is
      numeric. */
  method GetPrimaryCovarEncoder(obs: Obs, groups: Groups, reps: Dict<string>, toFloat: Cell -> Option<real>)
    returns (r: Result<PrimaryEncoder, Error>)
    requires |groups| > 0
    ensures r.Ok? <==> Classifiable(obs, groups[0].1, toFloat)
    ensures r.Ok? ==> (r.value.NoEncoder? <==> groups[0].0 in Keys(reps))
    ensures r.Ok? && r.value.BareEncoder? ==>
      ColumnKind(obs, groups[0].1[0], toFloat) == Some(true) && r.value.encoder.categories == ValueSet(obs, groups[0].1)
    ensures r.Ok? && r.value.EncoderPair? ==>
      ColumnKind(obs, groups[0].1[0], toFloat) == Some(false) && !r.value.isCategorical
      && r.value.encoder.categories == NameSet(groups[0].1)
    ensures r.Err? ==> r.error == CovariateTypeError(obs, groups[0].1, toFloat)
  {
    var primaryGroup := groups[0].0;
    var primaryCovars := groups[0].1;
    var isCategorical :- CheckCovariateType(obs, primaryCovars, toFloat);
    if primaryGroup in Keys(reps) {
      return Ok(NoEncoder);
    }
    if isCategorical {
      return Ok(BareEncoder(Encoder(ValueSet(obs, primaryCovars))));
    }
    return Ok(EncoderPair(Encoder(NameSet(primaryCovars)), isCategorical));
  }
}
