/** `TrainingData.load_from_adata` (data.py:437-583): validate the request,
    enumerate the control populations (distinct split combinations) and,
    within each, the target populations (distinct covariate combinations
    that have cells in it), write the two per-cell masks, number the
    populations, and collect one condition embedding per target. */
module Training {
  import opened Wrappers
  import opened Tables
  import opened Dicts
  import opened Shapes
  import opened Covariates
  import opened Embedding

  // ---------------------------------------------------------------- request

  /** The `sample_rep` argument: a name (`"X"` or a key of `adata.obsm`) or
      a dictionary `{attribute: key}`. */
  datatype SampleRep = RepName(name: string) | RepAttribute(entries: Dict<string>)

  /** The arguments of `load_from_adata` and the parts of the `AnnData` object
      it reads, with pandas' boolean and float conversions and the encoder's
      `transform` as parameters. */
  datatype Request = Request(
    obs: Obs,
    uns: Uns,
    obsmKeys: set<string>,
    sampleRep: SampleRep,
    controlKey: string,
    perturbation: Groups,
    perturbationReps: Dict<string>,
    samples: seq<string>,
    sampleReps: Dict<string>,
    splits: seq<string>,
    maxLength: Option<int>,
    nullValue: real,
    toBool: Cell -> Option<bool>,
    toFloat: Cell -> Option<real>,
    transform: (Encoder, Cell) -> Array)

  /** `{covar: [covar] for covar in sample_covariates}`: one single-covariate
      group per distinct sample covariate, in order of first appearance. */
  function SampleGroups(samples: seq<string>): (r: Groups)
    ensures DistinctKeys(r)
    ensures forall k :: k in Keys(r) <==> k in samples
    ensures forall i :: 0 <= i < |r| ==> r[i].1 == [Some(r[i].0)]
  {
    var ds := Distinct(samples);
    var r := seq(|ds|, i requires 0 <= i < |ds| => (ds[i], [Some(ds[i])]));
    assert Keys(r) == ds;
    r
  }

  /** `covariate_groups = perturbation_covariates | sample_cov_groups`. */
  function CovariateGroups(req: Request): (r: Groups)
    requires DistinctKeys(req.perturbation)
    ensures DistinctKeys(r)
    ensures forall k :: k in Keys(r) <==> k in Keys(req.perturbation) || k in req.samples
  {
    var e := SampleGroups(req.samples);
    assert forall k :: k in Keys(Union(req.perturbation, e)) <==> k in Keys(req.perturbation) || k in Keys(e) by {
      forall k ensures k in Keys(Union(req.perturbation, e)) <==> k in Keys(req.perturbation) || k in Keys(e) {
        UnionLookup(req.perturbation, e, k);
      }
    }
    Union(req.perturbation, e)
  }

  /** `covariate_reps = perturbation_covariate_reps | sample_covariate_reps`. */
  function CovariateReps(req: Request): (r: Dict<string>)
    requires DistinctKeys(req.perturbationReps)
    ensures DistinctKeys(r)
  {
    Union(req.perturbationReps, req.sampleReps)
  }

  /** The well-formedness a Python caller gets for free: dictionaries have
      distinct keys. */
  ghost predicate WellFormedRequest(req: Request) {
    DistinctKeys(req.perturbation) && DistinctKeys(req.perturbationReps)
  }

  /** The validations of data.py:470-490, in the order they run; the first
      failure is the error raised. */
  function Checks(req: Request): (r: Outcome<Error>)
    requires WellFormedRequest(req)
  {
    var control := VerifyControlData(req.obs, req.controlKey, req.toBool);
    if control.Err? then Fail(control.error)
    else if VerifyPerturbationCovariates(req.obs.columns, req.perturbation).Fail? then
      VerifyPerturbationCovariates(req.obs.columns, req.perturbation)
    else if VerifyLinkedCovars(req.perturbation).Fail? then VerifyLinkedCovars(req.perturbation)
    else if VerifySampleCovariates(req.obs.columns, req.samples).Fail? then
      VerifySampleCovariates(req.obs.columns, req.samples)
    else if VerifyCovariateReps(req.uns, CovariateReps(req), Keys(CovariateGroups(req))).Fail? then
      VerifyCovariateReps(req.uns, CovariateReps(req), Keys(CovariateGroups(req)))
    else VerifySplitCovariates(req.obs.columns, req.splits)
  }

  /** The checks pass exactly when every one of them passes, whatever their
      order. */
  lemma ChecksPass(req: Request)
    requires WellFormedRequest(req)
    ensures Checks(req).Pass? <==>
      && VerifyControlData(req.obs, req.controlKey, req.toBool).Ok?
      && VerifyPerturbationCovariates(req.obs.columns, req.perturbation).Pass?
      && VerifyLinkedCovars(req.perturbation).Pass?
      && VerifySampleCovariates(req.obs.columns, req.samples).Pass?
      && VerifyCovariateReps(req.uns, CovariateReps(req), Keys(CovariateGroups(req))).Pass?
      && VerifySplitCovariates(req.obs.columns, req.splits).Pass?
    ensures Checks(req).Pass? ==> |req.perturbation| > 0
  {
  }

  /** The request is loadable up to the encoder: the checks pass and the
      primary group can be classified as numeric or categorical. */
  ghost predicate Admissible(req: Request)
    requires WellFormedRequest(req)
  {
    Checks(req).Pass? && |req.perturbation| > 0 && Classifiable(req.obs, req.perturbation[0].1, req.toFloat)
  }

  // ------------------------------------------------------------------ setup

  /** What the loader computes before enumerating populations: the primary
      to linked map, the slot count, the group numbering and the encoder. */
  datatype Setup = Setup(
    links: Links,
    maxLength: int,
    idxToCovar: map<int, string>,
    covarToIdx: map<string, int>,
    encoder: PrimaryEncoder)

  /** The environment the arrays come from is well formed: every stored
      representation and every encoder output is a proper array. */
  ghost predicate Environment(req: Request) {
    RepsWellFormed(req.uns) && forall e, c :: WellFormed(req.transform(e, c))
  }

  /** The request's dictionaries are well formed, its arrays are proper
      arrays, and `s.links` names every linked group for every primary
      covariate: what one target's embedding needs of the setup. */
  ghost predicate Linked(req: Request, s: Setup) {
    && WellFormedRequest(req) && Environment(req)
    && |req.perturbation| > 0
    && (forall k :: k in req.perturbation[0].1 ==> k in s.links)
    && (forall k, h :: k in s.links && 1 <= h < |req.perturbation| ==> req.perturbation[h].0 in s.links[k])
  }

  /** `s` is what the loader computes for `req`. */
  ghost predicate Prepared(req: Request, s: Setup)
    requires WellFormedRequest(req)
  {
    && Linked(req, s)
    && LinkedShape(req.perturbation, s.links)
    && GetMaxCombinationLength(req.perturbation, req.maxLength) == Ok(s.maxLength)
    && (s.idxToCovar, s.covarToIdx) == GetIdxToCovariate(Keys(CovariateGroups(req)))
    && (s.encoder.NoEncoder? <==> req.perturbation[0].0 in Keys(req.perturbationReps))
    && (s.encoder.BareEncoder? ==> s.encoder.encoder.categories == ValueSet(req.obs, req.perturbation[0].1))
    && (s.encoder.EncoderPair? ==>
          !s.encoder.isCategorical && s.encoder.encoder.categories == NameSet(req.perturbation[0].1))
  }

  // ------------------------------------------------------------ enumeration

  /** The named covariates of the groups, in order, `None` slots dropped. */
  function Named(covars: seq<Covariate>): (r: seq<string>)
    ensures forall k :: k in r <==> Some(k) in covars
  {
    if covars == [] then []
    else
      var rest := Named(covars[1..]);
      assert forall x :: x in covars <==> x == covars[0] || x in covars[1..];
      if covars[0].Some? then [covars[0].value] + rest else rest
  }

  function FlatNames(groups: Groups): (r: seq<string>)
    ensures forall k :: k in r <==> exists g :: 0 <= g < |groups| && Some(k) in groups[g].1
  {
    if groups == [] then []
    else
      var rest := FlatNames(groups[1..]);
      assert forall g :: 1 <= g < |groups| ==> groups[g] == groups[1..][g - 1];
      assert forall k :: (exists g :: 1 <= g < |groups| && Some(k) in groups[g].1) ==> exists g :: 0 <= g < |groups[1..]| && Some(k) in groups[1..][g].1;
      Named(groups[0].1) + rest
  }

  /** `perturb_covar_keys`: every named perturbation covariate, then the
      sample covariates. */
  function CovariateKeys(req: Request): (r: seq<string>)
    ensures forall k :: k in r <==> k in req.samples || exists g :: 0 <= g < |req.perturbation| && Some(k) in req.perturbation[g].1
  {
    FlatNames(req.perturbation) + req.samples
  }

  /** The tables the enumeration walks: the rows of `adata.obs`, the split
      and covariate columns, the split combinations and the candidate target
      combinations, each without repetition. */
  datatype Grid = Grid(rows: seq<Row>, splits: seq<string>, keys: seq<string>, combs: seq<seq<Cell>>, cands: seq<seq<Cell>>) {
    ghost predicate Valid() {
      && (forall a, b :: 0 <= a < b < |combs| ==> combs[a] != combs[b])
      && (forall a, b :: 0 <= a < b < |cands| ==> cands[a] != cands[b])
      && (forall c :: 0 <= c < |rows| ==> Project(rows[c], splits) in combs && Project(rows[c], keys) in cands)
      && (forall n :: 0 <= n < |cands| ==> |cands[n]| == |keys|)
    }

    /** The control population (split combination) of cell `c`. */
    function SplitOf(c: nat): (j: nat)
      requires Valid() && c < |rows|
      ensures j < |combs| && combs[j] == Project(rows[c], splits)
    {
      IndexOf(combs, Project(rows[c], splits))
    }

    /** The candidate combination of cell `c`. */
    function CandOf(c: nat): (n: nat)
      requires Valid() && c < |rows|
      ensures n < |cands| && cands[n] == Project(rows[c], keys)
    {
      IndexOf(cands, Project(rows[c], keys))
    }

    /** Cell `c` has no missing split value, so the split mask of its
        combination selects it. */
    predicate InSplitMask(c: nat)
      requires c < |rows|
    {
      Complete(Project(rows[c], splits))
    }

    /** Cell `c` has no missing split or covariate value, so the target mask
        of its combination selects it. */
    predicate Numbered(c: nat)
      requires c < |rows|
    {
      InSplitMask(c) && Complete(Project(rows[c], keys))
    }

    /** Pandas matches some cell to split `j` and to covariate values
        `tgt`: the cell holds those values and none of them is missing. */
    ghost predicate Occupied(j: nat, tgt: seq<Cell>)
      requires j < |combs|
    {
      exists c :: 0 <= c < |rows| && Matches(Project(rows[c], splits), combs[j]) && Matches(Project(rows[c], keys), tgt)
    }
  }

  /** `split_cov_combs`: the distinct split rows in first-appearance order,
      or one empty combination when there are no split covariates. */
  function SplitCombinations(rows: seq<Row>, splits: seq<string>): (r: seq<seq<Cell>>)
    ensures forall a, b :: 0 <= a < b < |r| ==> r[a] != r[b]
    ensures forall c :: 0 <= c < |rows| ==> Project(rows[c], splits) in r
    ensures splits == [] ==> r == [[]]
  {
    if |splits| > 0 then Distinct(ProjectAll(rows, splits))
    else
      assert forall c :: 0 <= c < |rows| ==> Project(rows[c], splits) == [];
      [[]]
  }

  /** The grid of a request: split combinations, and the distinct rows of
      `adata.obs[perturb_covar_keys]` as candidates. */
  function GridOf(rows: seq<Row>, splits: seq<string>, keys: seq<string>): (g: Grid)
    ensures g.Valid() && g.rows == rows && g.splits == splits && g.keys == keys
    ensures g.combs == SplitCombinations(rows, splits)
    ensures g.cands == Distinct(ProjectAll(rows, keys))
  {
    var all := ProjectAll(rows, keys);
    var cands := Distinct(all);
    assert forall n :: 0 <= n < |cands| ==> |cands[n]| == |keys| by {
      forall n | 0 <= n < |cands| ensures |cands[n]| == |keys| {
        assert cands[n] in cands;
        var c :| 0 <= c < |all| && all[c] == cands[n];
      }
    }
    Grid(rows, splits, keys, SplitCombinations(rows, splits), cands)
  }

  /** The targets of split `j` among the first `n` candidates, in candidate
      order: the candidates with at least one cell in the split. */
  ghost function SplitTargets(g: Grid, j: nat, n: nat): (ts: seq<seq<Cell>>)
    requires j < |g.combs| && n <= |g.cands|
    ensures |ts| <= n
    ensures forall i :: 0 <= i < |ts| ==> |ts[i]| == |g.keys|
  {
    if n == 0 then []
    else
      var prev := SplitTargets(g, j, n - 1);
      if g.Occupied(j, g.cands[n - 1]) then prev + [g.cands[n - 1]] else prev
  }

  /** Targets tagged with their split. */
  function Tag(j: nat, ts: seq<seq<Cell>>): (r: seq<(nat, seq<Cell>)>)
    ensures |r| == |ts| && forall i :: 0 <= i < |ts| ==> r[i] == (j, ts[i])
  {
    seq(|ts|, i requires 0 <= i < |ts| => (j, ts[i]))
  }

  /** The targets of the splits before `j`, split by split: target `t` of
      the loader is element `t` of `TargetsBefore(g, |g.combs|)`. */
  ghost function TargetsBefore(g: Grid, j: nat): (ps: seq<(nat, seq<Cell>)>)
    requires j <= |g.combs|
    ensures forall t :: 0 <= t < |ps| ==> ps[t].0 < j && |ps[t].1| == |g.keys|
  {
    if j == 0 then []
    else TargetsBefore(g, j - 1) + Tag(j - 1, SplitTargets(g, j - 1, |g.cands|))
  }

  ghost function Targets(g: Grid): seq<(nat, seq<Cell>)> {
    TargetsBefore(g, |g.combs|)
  }

  /** The first target number of split `j`. */
  ghost function Start(g: Grid, j: nat): nat
    requires j <= |g.combs|
  {
    |TargetsBefore(g, j)|
  }

  /** `a, a+1, ..., b-1`. */
  function Range(a: int, b: int): (r: seq<int>)
    ensures |r| == if a <= b then b - a else 0
    decreases b - a
  {
    if a < b then Range(a, b - 1) + [b - 1] else []
  }

  /** A prefix of `b` is a prefix of `b + c`. */
  lemma PrefixExtend<T>(a: seq<T>, b: seq<T>, c: seq<T>)
    requires a <= b
    ensures a <= b + c
  {
    assert (b + c)[..|a|] == b[..|a|];
  }

  lemma {:induction false} SplitTargetsPrefix(g: Grid, j: nat, n: nat, m: nat)
    requires j < |g.combs| && n <= m <= |g.cands|
    ensures SplitTargets(g, j, n) <= SplitTargets(g, j, m)
    decreases m
  {
    if n < m {
      SplitTargetsPrefix(g, j, n, m - 1);
      var prev := SplitTargets(g, j, m - 1);
      if g.Occupied(j, g.cands[m - 1]) {
        PrefixExtend(SplitTargets(g, j, n), prev, [g.cands[m - 1]]);
      }
    }
  }

  lemma {:induction false} TargetsBeforePrefix(g: Grid, j: nat, k: nat)
    requires j <= k <= |g.combs|
    ensures TargetsBefore(g, j) <= TargetsBefore(g, k)
    decreases k
  {
    if j < k {
      TargetsBeforePrefix(g, j, k - 1);
      var c := Tag(k - 1, SplitTargets(g, k - 1, |g.cands|));
      assert TargetsBefore(g, k) == TargetsBefore(g, k - 1) + c;
      PrefixExtend(TargetsBefore(g, j), TargetsBefore(g, k - 1), c);
    }
  }

  // ---------------------------------------------------------- one target

  /** `tgt_cond`: the candidate's values as a row indexed by the covariate
      keys (the first position of a repeated key gives its value). */
  function CondRow(keys: seq<string>, vals: seq<Cell>): (row: Row)
    requires |vals| == |keys|
    ensures forall k :: k in row <==> k in keys
    ensures forall i :: 0 <= i < |keys| && keys[i] !in keys[..i] ==> row[keys[i]] == vals[i]
  {
    var row := map k | k in keys :: vals[FirstIndex(keys, k)];
    assert forall i :: 0 <= i < |keys| && keys[i] !in keys[..i] ==> FirstIndex(keys, keys[i]) == i;
    row
  }

  /** The arguments `_get_perturbation_covariates` receives for the target
      with covariate values `tgt`. */
  function InputsFor(req: Request, s: Setup, keys: seq<string>, tgt: seq<Cell>): (inp: Inputs)
    requires WellFormedRequest(req) && |tgt| == |keys|
    ensures Linked(req, s) ==> inp.Valid()
    ensures inp.cond == CondRow(keys, tgt) && inp.groups == req.perturbation && inp.samples == req.samples
  {
    Inputs(CondRow(keys, tgt), req.uns, CovariateReps(req), req.perturbation, req.samples,
           s.links, s.maxLength, req.nullValue, req.transform, req.toFloat)
  }

  /** The embedding of a target can be built: the encoder unpacks as a
      pair, every group row and every sample row exists and each group's
      rows have one width. */
  ghost predicate EmbeddingOk(inp: Inputs, enc: PrimaryEncoder)
    requires inp.Valid()
  {
    enc.EncoderPair? && GroupsOk(inp, enc.encoder, enc.isCategorical) && SamplesOk(inp)
  }

  /** `column` (covariate key to array) is the embedding of `inp`: each
      perturbation group's rows padded to the slot count and each sample
      covariate's tiled row. */
  ghost predicate Embedded(inp: Inputs, enc: PrimaryEncoder, column: map<string, Matrix>)
    requires inp.Valid()
  {
    && enc.EncoderPair? && GroupsOk(inp, enc.encoder, enc.isCategorical) && SamplesOk(inp)
    && (forall k :: k in column <==> k in Keys(inp.groups) || k in inp.samples)
    && (forall g :: 0 <= g < |inp.groups| && inp.groups[g].0 !in inp.samples ==>
          inp.groups[g].0 in column &&
          PaddedStack(RowsOf(inp, enc.encoder, enc.isCategorical, g), inp.maxLength, inp.nullValue, column[inp.groups[g].0]))
    && (forall s :: s in inp.samples ==> s in column && column[s] == SampleRow(inp, s).value)
  }

  /** The dictionary returned by `_get_perturbation_covariates` as a map. */
  function AsMap(d: Dict<Matrix>): (m: map<string, Matrix>)
    ensures forall k :: k in m <==> k in Keys(d)
    ensures forall k :: k in m ==> Lookup(d, k) == Some(m[k])
  {
    map k | k in Keys(d) :: Lookup(d, k).value
  }

  /** The arrays of target `t` in the per-key lists of `condition_data`. */
  ghost function Column(cd: map<string, seq<Matrix>>, t: nat): map<string, Matrix>
    requires forall k :: k in cd ==> t < |cd[k]|
  {
    map k | k in cd :: cd[k][t]
  }

  /** `cd` is the per-key stacking of the columns `embs`: under each key,
      the array of each column in column order. */
  ghost predicate Stacked(cd: map<string, seq<Matrix>>, embs: seq<map<string, Matrix>>) {
    && (forall t :: 0 <= t < |embs| ==> embs[t].Keys == cd.Keys)
    && (forall k :: k in cd ==> |cd[k]| == |embs|)
    && (forall k, t :: k in cd && 0 <= t < |embs| ==> cd[k][t] == embs[t][k])
  }

  /** Appending one array per key stacks one more column. */
  lemma StackAppend(cd: map<string, seq<Matrix>>, embs: seq<map<string, Matrix>>, m: map<string, Matrix>, cd': map<string, seq<Matrix>>)
    requires Stacked(cd, embs)
    requires cd.Keys == m.Keys == cd'.Keys && forall k :: k in cd ==> cd'[k] == cd[k] + [m[k]]
    ensures Stacked(cd', embs + [m])
  {
  }

  /** The columns of a stacking are the stacked columns. */
  lemma StackedColumns(cd: map<string, seq<Matrix>>, embs: seq<map<string, Matrix>>, t: nat)
    requires Stacked(cd, embs) && t < |embs|
    ensures forall k :: k in cd ==> t < |cd[k]|
    ensures Column(cd, t) == embs[t]
  {
  }

  /** `for pert_cov, emb in embedding.items(): condition_data[pert_cov].append(emb)`. */
  method AppendEmbedding(cd: map<string, seq<Matrix>>, emb: Dict<Matrix>) returns (r: map<string, seq<Matrix>>)
    requires DistinctKeys(emb) && forall k :: k in Keys(emb) ==> k in cd
    ensures r.Keys == cd.Keys
    ensures forall k :: k in cd ==> r[k] == if k in Keys(emb) then cd[k] + [Lookup(emb, k).value] else cd[k]
  {
    r := cd;
    ghost var ks := Keys(emb);
    var i := 0;
    while i < |emb|
      invariant 0 <= i <= |emb| && r.Keys == cd.Keys
      invariant forall k :: k in cd ==> r[k] == if k in ks[..i] then cd[k] + [Lookup(emb, k).value] else cd[k]
    {
      var (k, v) := emb[i];
      LookupAt(emb, i);
      assert ks[..i + 1] == ks[..i] + [k];
      assert k !in ks[..i];
      r := r[k := r[k] + [v]];
      i := i + 1;
    }
    assert ks[..i] == ks;
  }

  // -------------------------------------------------------- loader state

  /** The targets numbered once split `j` has been walked up to candidate `n`. */
  ghost function TargetsSoFar(g: Grid, j: nat, n: nat): seq<(nat, seq<Cell>)>
    requires j <= |g.combs| && n <= |g.cands|
  {
    TargetsBefore(g, j) + if j < |g.combs| then Tag(j, SplitTargets(g, j, n)) else []
  }

  /** Cells without a missing value that are in an earlier split, or in
      split `j` with a candidate before `n`, carry the number of their target
      in `pm`; every other cell still holds -1. */
  ghost predicate Masked(g: Grid, pm: seq<int>, pairs: seq<(nat, seq<Cell>)>, j: nat, n: nat)
    requires g.Valid() && |pm| == |g.rows|
  {
    forall c :: 0 <= c < |g.rows| ==>
      if g.Numbered(c) && (g.SplitOf(c) < j || (g.SplitOf(c) == j && g.CandOf(c) < n))
      then 0 <= pm[c] < |pairs| && pairs[pm[c]] == (g.SplitOf(c), Project(g.rows[c], g.keys))
      else pm[c] == -1
  }

  /** `idx` maps each target number to the target's covariate values. */
  ghost predicate Indexed(idx: map<int, seq<Cell>>, pairs: seq<(nat, seq<Cell>)>) {
    && (forall t :: t in idx <==> 0 <= t < |pairs|)
    && (forall t :: 0 <= t < |pairs| ==> idx[t] == pairs[t].1)
  }

  /** `embs[t]` is the embedding of target `t`. */
  ghost predicate AllEmbedded(req: Request, s: Setup, keys: seq<string>, pairs: seq<(nat, seq<Cell>)>,
                              embs: seq<map<string, Matrix>>)
    requires Linked(req, s)
  {
    && |embs| == |pairs|
    && forall t {:trigger Embedded(InputsFor(req, s, keys, pairs[t].1), s.encoder, embs[t])} ::
         0 <= t < |pairs| ==> |pairs[t].1| == |keys| && Embedded(InputsFor(req, s, keys, pairs[t].1), s.encoder, embs[t])
  }

  /** `cd` holds, under every covariate key, the stacking of the columns
      `embs`. */
  ghost predicate Conditioned(req: Request, cd: map<string, seq<Matrix>>, embs: seq<map<string, Matrix>>)
    requires WellFormedRequest(req)
  {
    && (forall k :: k in cd <==> k in Keys(CovariateGroups(req)))
    && Stacked(cd, embs)
  }

  /** The loader's target state after split `j` has been walked up to
      candidate `n`: `pairs` lists the targets numbered so far (split and
      covariate values), with the masks, the number-to-values map and the
      condition data that go with them. */
  ghost predicate Filled(req: Request, g: Grid, pm: seq<int>, idx: map<int, seq<Cell>>,
                         cd: map<string, seq<Matrix>>, pairs: seq<(nat, seq<Cell>)>, embs: seq<map<string, Matrix>>,
                         j: nat, n: nat)
    requires WellFormedRequest(req) && g.Valid() && j <= |g.combs| && n <= |g.cands|
  {
    && |pm| == |g.rows|
    && pairs == TargetsSoFar(g, j, n)
    && (forall t :: 0 <= t < |pairs| ==> |pairs[t].1| == |g.keys|)
    && Masked(g, pm, pairs, j, n)
    && Indexed(idx, pairs)
    && |embs| == |pairs|
    && Conditioned(req, cd, embs)
  }

  /** Walking one more candidate adds it as the next target exactly when
      it has cells in the split. */
  lemma TargetsSoFarStep(g: Grid, j: nat, n: nat)
    requires j < |g.combs| && n < |g.cands|
    ensures TargetsSoFar(g, j, n + 1) ==
      TargetsSoFar(g, j, n) + if g.Occupied(j, g.cands[n]) then [(j, g.cands[n])] else []
  {
    var before := TargetsBefore(g, j);
    var prev := SplitTargets(g, j, n);
    if g.Occupied(j, g.cands[n]) {
      assert Tag(j, prev + [g.cands[n]]) == Tag(j, prev) + [(j, g.cands[n])];
    }
  }

  lemma IndexAppend(idx: map<int, seq<Cell>>, pairs: seq<(nat, seq<Cell>)>, p: (nat, seq<Cell>))
    requires Indexed(idx, pairs)
    ensures Indexed(idx[|pairs| := p.1], pairs + [p])
  {
  }

  /** A candidate without cells in the split is skipped and changes nothing. */
  lemma SkipCandidate(req: Request, g: Grid, pm: seq<int>, idx: map<int, seq<Cell>>,
                      cd: map<string, seq<Matrix>>, pairs: seq<(nat, seq<Cell>)>, embs: seq<map<string, Matrix>>,
                      j: nat, n: nat)
    requires WellFormedRequest(req) && g.Valid() && j < |g.combs| && n < |g.cands|
    requires Filled(req, g, pm, idx, cd, pairs, embs, j, n) && !g.Occupied(j, g.cands[n])
    ensures Filled(req, g, pm, idx, cd, pairs, embs, j, n + 1)
  {
    TargetsSoFarStep(g, j, n);
    forall c | 0 <= c < |g.rows| && g.Numbered(c) && g.SplitOf(c) == j
      ensures g.CandOf(c) != n
    {
      if g.CandOf(c) == n {
        assert Matches(Project(g.rows[c], g.splits), g.combs[j]) && Matches(Project(g.rows[c], g.keys), g.cands[n]);
      }
    }
  }

  /** `split_cov_mask`: the cells whose split columns pandas matches to
      `comb`. */
  function SplitHits(g: Grid, comb: seq<Cell>): (hits: seq<bool>)
    ensures |hits| == |g.rows|
    ensures forall c :: 0 <= c < |g.rows| ==> hits[c] == Matches(Project(g.rows[c], g.splits), comb)
  {
    seq(|g.rows|, c requires 0 <= c < |g.rows| => Matches(Project(g.rows[c], g.splits), comb))
  }

  /** `mask`: the cells of split `comb` whose covariate columns pandas
      matches to `tgt`. */
  function TargetHits(g: Grid, comb: seq<Cell>, tgt: seq<Cell>): (hits: seq<bool>)
    ensures |hits| == |g.rows|
    ensures forall c :: 0 <= c < |g.rows| ==>
      hits[c] == (Matches(Project(g.rows[c], g.splits), comb) && Matches(Project(g.rows[c], g.keys), tgt))
  {
    seq(|g.rows|, c requires 0 <= c < |g.rows| =>
      Matches(Project(g.rows[c], g.splits), comb) && Matches(Project(g.rows[c], g.keys), tgt))
  }

  /** `mask.sum() == 0` exactly when pandas matches no cell to split `j`
      and the values `tgt`. */
  lemma HitsOccupied(g: Grid, j: nat, tgt: seq<Cell>)
    requires j < |g.combs|
    ensures CountTrue(TargetHits(g, g.combs[j], tgt)) != 0 <==> g.Occupied(j, tgt)
  {
    var hits := TargetHits(g, g.combs[j], tgt);
    if CountTrue(hits) == 0 {
      forall c | 0 <= c < |g.rows|
        ensures !(Matches(Project(g.rows[c], g.splits), g.combs[j]) && Matches(Project(g.rows[c], g.keys), tgt))
      {
        assert !hits[c];
      }
    } else {
      var c :| 0 <= c < |hits| && hits[c];
    }
  }

  /** Within the grid, a cell hits candidate `n` of split `j` exactly when
      those are its split and its candidate and none of its values is
      missing; it hits split `j` exactly when that is its split and none of
      its split values is missing. */
  lemma HitsExactly(g: Grid, j: nat, n: nat, c: nat)
    requires g.Valid() && j < |g.combs| && n < |g.cands| && c < |g.rows|
    ensures TargetHits(g, g.combs[j], g.cands[n])[c] <==> g.Numbered(c) && g.SplitOf(c) == j && g.CandOf(c) == n
    ensures SplitHits(g, g.combs[j])[c] <==> g.InSplitMask(c) && g.SplitOf(c) == j
  {
    if Project(g.rows[c], g.splits) == g.combs[j] {
      IndexOfUnique(g.combs, j);
    }
    if Project(g.rows[c], g.keys) == g.cands[n] {
      IndexOfUnique(g.cands, n);
    }
  }

  /** A candidate with cells in the split becomes the next target: its
      cells get the next number, the number is mapped to its values and its
      embedding is appended under every key. */
  lemma TakeCandidate(req: Request, g: Grid, pm: seq<int>, idx: map<int, seq<Cell>>,
                      cd: map<string, seq<Matrix>>, pairs: seq<(nat, seq<Cell>)>, embs: seq<map<string, Matrix>>,
                      j: nat, n: nat, pm': seq<int>, cd': map<string, seq<Matrix>>, m: map<string, Matrix>)
    requires WellFormedRequest(req) && g.Valid() && j < |g.combs| && n < |g.cands|
    requires Filled(req, g, pm, idx, cd, pairs, embs, j, n) && g.Occupied(j, g.cands[n])
    requires |pm'| == |pm|
    requires forall c :: 0 <= c < |pm| ==> pm'[c] == if TargetHits(g, g.combs[j], g.cands[n])[c] then |pairs| else pm[c]
    requires m.Keys == cd.Keys == cd'.Keys && forall k :: k in cd ==> cd'[k] == cd[k] + [m[k]]
    ensures Filled(req, g, pm', idx[|pairs| := g.cands[n]], cd', pairs + [(j, g.cands[n])], embs + [m], j, n + 1)
  {
    TargetsSoFarStep(g, j, n);
    MaskTarget(g, pm, pairs, j, n, pm');
    IndexAppend(idx, pairs, (j, g.cands[n]));
    StackAppend(cd, embs, m, cd');
  }

  lemma MaskTarget(g: Grid, pm: seq<int>, pairs: seq<(nat, seq<Cell>)>, j: nat, n: nat, pm': seq<int>)
    requires g.Valid() && j < |g.combs| && n < |g.cands| && |pm| == |g.rows|
    requires Masked(g, pm, pairs, j, n)
    requires |pm'| == |pm|
    requires forall c :: 0 <= c < |pm| ==> pm'[c] == if TargetHits(g, g.combs[j], g.cands[n])[c] then |pairs| else pm[c]
    ensures Masked(g, pm', pairs + [(j, g.cands[n])], j, n + 1)
  {
    var pairs' := pairs + [(j, g.cands[n])];
    forall c | 0 <= c < |g.rows|
      ensures if g.Numbered(c) && (g.SplitOf(c) < j || (g.SplitOf(c) == j && g.CandOf(c) < n + 1))
              then 0 <= pm'[c] < |pairs'| && pairs'[pm'[c]] == (g.SplitOf(c), Project(g.rows[c], g.keys))
              else pm'[c] == -1
    {
      HitsExactly(g, j, n, c);
    }
  }

  lemma EmbeddedAppend(req: Request, s: Setup, keys: seq<string>, pairs: seq<(nat, seq<Cell>)>,
                       embs: seq<map<string, Matrix>>, tag: nat, tgt: seq<Cell>, m: map<string, Matrix>)
    requires Linked(req, s) && (forall t :: 0 <= t < |pairs| ==> |pairs[t].1| == |keys|) && |tgt| == |keys|
    requires AllEmbedded(req, s, keys, pairs, embs)
    requires Embedded(InputsFor(req, s, keys, tgt), s.encoder, m)
    ensures AllEmbedded(req, s, keys, pairs + [(tag, tgt)], embs + [m])
  {
  }

  /** Before its first candidate, split `j` has numbered no target yet. */
  lemma SplitBegins(g: Grid, j: nat)
    requires j < |g.combs|
    ensures |TargetsSoFar(g, j, 0)| == Start(g, j)
  {
    assert SplitTargets(g, j, 0) == [];
  }

  /** A split walked to its last candidate is the next split not yet begun. */
  lemma NextSplit(req: Request, g: Grid, pm: seq<int>, idx: map<int, seq<Cell>>,
                  cd: map<string, seq<Matrix>>, pairs: seq<(nat, seq<Cell>)>, embs: seq<map<string, Matrix>>, j: nat)
    requires WellFormedRequest(req) && g.Valid() && j < |g.combs|
    requires Filled(req, g, pm, idx, cd, pairs, embs, j, |g.cands|)
    ensures Filled(req, g, pm, idx, cd, pairs, embs, j + 1, 0)
    ensures |pairs| == Start(g, j + 1)
  {
    assert TargetsSoFar(g, j, |g.cands|) == TargetsSoFar(g, j + 1, 0);
  }

  /** The first `n` candidates' targets of split `j` are the first targets
      of that split overall. */
  lemma TargetsSoFarPrefix(g: Grid, j: nat, n: nat)
    requires j < |g.combs| && n <= |g.cands|
    ensures TargetsSoFar(g, j, n) <= Targets(g)
  {
    SplitTargetsPrefix(g, j, n, |g.cands|);
    var a := SplitTargets(g, j, n);
    var b := SplitTargets(g, j, |g.cands|);
    assert Tag(j, a) <= Tag(j, b) by {
      assert Tag(j, b)[..|a|] == Tag(j, a);
    }
    TargetsBeforePrefix(g, j + 1, |g.combs|);
  }

  /** The result of `_get_perturbation_covariates` for a target is its
      embedding. */
  lemma EmbeddedResult(inp: Inputs, enc: PrimaryEncoder, d: Dict<Matrix>)
    requires inp.Valid() && enc.EncoderPair? && GroupsOk(inp, enc.encoder, enc.isCategorical) && SamplesOk(inp)
    requires DistinctKeys(d)
    requires forall k :: k in Keys(d) <==> k in Keys(inp.groups) || k in inp.samples
    requires forall g :: 0 <= g < |inp.groups| && inp.groups[g].0 !in inp.samples ==>
      Lookup(d, inp.groups[g].0).Some? &&
      PaddedStack(RowsOf(inp, enc.encoder, enc.isCategorical, g), inp.maxLength, inp.nullValue, Lookup(d, inp.groups[g].0).value)
    requires forall s :: s in inp.samples ==> Lookup(d, s) == Some(SampleRow(inp, s).value)
    ensures Embedded(inp, enc, AsMap(d))
  {
  }

  /** The cells of the splits before `j` without a missing split value
      carry `2 * split` in the split mask; the other cells still hold -1. */
  ghost predicate SplitMasked(g: Grid, sm: seq<int>, j: nat)
    requires g.Valid() && j <= |g.combs|
  {
    && |sm| == |g.rows|
    && (forall c :: 0 <= c < |g.rows| ==> sm[c] == if g.InSplitMask(c) && g.SplitOf(c) < j then 2 * g.SplitOf(c) else -1)
  }

  /** `split_idx_to_covariates` once the first `j` splits are numbered:
      split `i` under key `2 * i`, since `src_counter` advances twice per
      split. */
  ghost function SplitIndex(g: Grid, j: nat): map<int, seq<Cell>>
    requires j <= |g.combs|
  {
    if j == 0 then map[] else SplitIndex(g, j - 1)[2 * (j - 1) := g.combs[j - 1]]
  }

  /** `control_to_perturbation` once the first `j` splits are walked: the
      numbers of split `i`'s targets under key `2 * i + 1`. */
  ghost function ControlTargets(g: Grid, j: nat): map<int, seq<int>>
    requires j <= |g.combs|
  {
    if j == 0 then map[] else ControlTargets(g, j - 1)[2 * (j - 1) + 1 := Range(Start(g, j - 1), Start(g, j))]
  }

  /** Numbering split `j` extends both maps by one split. */
  lemma NumberSplit(g: Grid, j: nat, splitIdx: map<int, seq<Cell>>, ctp: map<int, seq<int>>, dists: seq<int>, key: int)
    requires j < |g.combs| && splitIdx == SplitIndex(g, j) && ctp == ControlTargets(g, j)
    requires dists == Range(Start(g, j), Start(g, j + 1)) && key == 2 * j + 1
    ensures splitIdx[key - 1 := g.combs[j]] == SplitIndex(g, j + 1)
    ensures ctp[key := dists] == ControlTargets(g, j + 1)
  {
  }

  /** The split numbers are the even numbers below `2 * j`, and number
      `2 * i` stands for combination `i`. */
  lemma {:induction false} SplitIndexContents(g: Grid, j: nat)
    requires j <= |g.combs|
    ensures forall k :: k in SplitIndex(g, j) <==> 0 <= k < 2 * j && k % 2 == 0
    ensures forall i :: 0 <= i < j ==> 2 * i in SplitIndex(g, j) && SplitIndex(g, j)[2 * i] == g.combs[i]
  {
    if j > 0 {
      SplitIndexContents(g, j - 1);
      assert (2 * j - 1) % 2 == 1;
    }
  }

  /** The keys of `control_to_perturbation` are the odd numbers below
      `2 * j`, and key `2 * i + 1` lists the targets of split `i`. */
  lemma {:induction false} ControlTargetsContents(g: Grid, j: nat)
    requires j <= |g.combs|
    ensures forall k :: k in ControlTargets(g, j) <==> 0 <= k < 2 * j && k % 2 == 1
    ensures forall i :: 0 <= i < j ==>
      2 * i + 1 in ControlTargets(g, j) && ControlTargets(g, j)[2 * i + 1] == Range(Start(g, i), Start(g, i + 1))
  {
    if j > 0 {
      ControlTargetsContents(g, j - 1);
      var prev := ControlTargets(g, j - 1);
      var key := 2 * (j - 1) + 1;
      assert ControlTargets(g, j) == prev[key := Range(Start(g, j - 1), Start(g, j))];
      forall k ensures k in ControlTargets(g, j) <==> 0 <= k < 2 * j && k % 2 == 1 {
        assert k in ControlTargets(g, j) <==> k == key || k in prev;
      }
      forall i | 0 <= i < j - 1 ensures 2 * i + 1 != key { }
    }
  }

  /** `sm[split_cells_mask] = src_counter` for split `j` extends the split
      mask by one split. */
  lemma SplitMaskStep(g: Grid, sm: seq<int>, j: nat, sm': seq<int>)
    requires g.Valid() && j < |g.combs| && SplitMasked(g, sm, j)
    requires |sm'| == |sm| && forall c :: 0 <= c < |sm| ==> sm'[c] == if SplitHits(g, g.combs[j])[c] then 2 * j else sm[c]
    ensures SplitMasked(g, sm', j + 1)
  {
    forall c | 0 <= c < |g.rows|
      ensures sm'[c] == if g.InSplitMask(c) && g.SplitOf(c) < j + 1 then 2 * g.SplitOf(c) else -1
    {
      if Project(g.rows[c], g.splits) == g.combs[j] {
        IndexOfUnique(g.combs, j);
      }
    }
  }

  lemma RangeAppend(a: int, b: int)
    requires a <= b
    ensures Range(a, b + 1) == Range(a, b) + [b]
  {
  }

  /** `mask[hits] = value`: overwrite the selected cells in place. */
  method WriteMask(mask: array<int>, hits: seq<bool>, value: int)
    requires mask.Length == |hits|
    modifies mask
    ensures forall c :: 0 <= c < mask.Length ==> mask[c] == if hits[c] then value else old(mask[c])
  {
    var c := 0;
    while c < mask.Length
      invariant 0 <= c <= mask.Length
      invariant forall i :: 0 <= i < mask.Length ==> mask[i] == if i < c && hits[i] then value else old(mask[i])
    {
      if hits[c] {
        mask[c] := value;
      }
      c := c + 1;
    }
  }

  /** The embedding of target `t` cannot be built. */
  ghost predicate TargetFails(req: Request, s: Setup, g: Grid, t: nat)
    requires Linked(req, s) && t < |Targets(g)|
  {
    !EmbeddingOk(InputsFor(req, s, g.keys, Targets(g)[t].1), s.encoder)
  }

  /** Target `t` is the first whose embedding cannot be built, and `e` is
      the error its `_get_perturbation_covariates` raises. */
  ghost predicate FirstFailure(req: Request, s: Setup, g: Grid, t: int, e: Error)
    requires Linked(req, s)
  {
    && 0 <= t < |Targets(g)|
    && TargetFails(req, s, g, t)
    && (forall u :: 0 <= u < t ==> !TargetFails(req, s, g, u))
    && Raises(InputsFor(req, s, g.keys, Targets(g)[t].1), s.encoder, e)
  }

  /** The first failing target, and its error, are determined. */
  lemma FirstFailureUnique(req: Request, s: Setup, g: Grid, t1: int, e1: Error, t2: int, e2: Error)
    requires Linked(req, s) && FirstFailure(req, s, g, t1, e1) && FirstFailure(req, s, g, t2, e2)
    ensures t1 == t2 && e1 == e2
  {
    assert t1 == t2;
    RaisesUnique(InputsFor(req, s, g.keys, Targets(g)[t1].1), s.encoder, e1, e2);
  }

  /** What the walk of one split hands back: the next target number, the
      number-to-values map, the condition data and the split's targets. */
  datatype Filling = Filling(counter: nat, idx: map<int, seq<Cell>>, cd: map<string, seq<Matrix>>, dists: seq<int>)

  /** `_get_perturbation_covariates` for the target with covariate values
      `tgt`: its embedding, or the error that stops the loader. */
  method EmbedTarget(req: Request, s: Setup, keys: seq<string>, tgt: seq<Cell>) returns (r: Result<Dict<Matrix>, Error>)
    requires Linked(req, s) && |tgt| == |keys|
    ensures r.Err? <==> !EmbeddingOk(InputsFor(req, s, keys, tgt), s.encoder)
    ensures r.Ok? ==> DistinctKeys(r.value) && forall k :: k in Keys(r.value) <==> k in Keys(CovariateGroups(req))
    ensures r.Ok? ==> Embedded(InputsFor(req, s, keys, tgt), s.encoder, AsMap(r.value))
    ensures r.Err? ==> Raises(InputsFor(req, s, keys, tgt), s.encoder, r.error)
  {
    var inp := InputsFor(req, s, keys, tgt);
    r := GetPerturbationCovariates(inp, s.encoder);
    if r.Ok? {
      EmbeddedResult(inp, s.encoder, r.value);
    }
  }

  /** A candidate of split `j` whose embedding cannot be built, reached
      with every earlier target embedded, is the first target that fails,
      and its error is the loader's. */
  lemma FailureAt(req: Request, s: Setup, g: Grid, j: nat, n: nat, pairs: seq<(nat, seq<Cell>)>,
                  embs: seq<map<string, Matrix>>, e: Error)
    requires Linked(req, s) && g.Valid() && j < |g.combs| && n < |g.cands| && g.Occupied(j, g.cands[n])
    requires pairs == TargetsSoFar(g, j, n) && AllEmbedded(req, s, g.keys, pairs, embs)
    requires !EmbeddingOk(InputsFor(req, s, g.keys, g.cands[n]), s.encoder)
    requires Raises(InputsFor(req, s, g.keys, g.cands[n]), s.encoder, e)
    ensures exists t :: FirstFailure(req, s, g, t, e)
  {
    TargetsSoFarStep(g, j, n);
    TargetsSoFarPrefix(g, j, n + 1);
    var t := |pairs|;
    assert Targets(g)[t] == (j, g.cands[n]);
    forall u | 0 <= u < t ensures !TargetFails(req, s, g, u) {
      assert Targets(g)[u] == pairs[u];
      assert Embedded(InputsFor(req, s, g.keys, pairs[u].1), s.encoder, embs[u]);
    }
    assert FirstFailure(req, s, g, t, e);
  }

  /** Under keys that match, appending the entries of `emb` one by one
      stacks the column `AsMap(emb)`. */
  lemma ColumnAppended(cd: map<string, seq<Matrix>>, emb: Dict<Matrix>, cd': map<string, seq<Matrix>>)
    requires DistinctKeys(emb) && forall k :: k in cd <==> k in Keys(emb)
    requires cd'.Keys == cd.Keys
    requires forall k :: k in cd ==> cd'[k] == if k in Keys(emb) then cd[k] + [Lookup(emb, k).value] else cd[k]
    ensures AsMap(emb).Keys == cd.Keys && forall k :: k in cd ==> cd'[k] == cd[k] + [AsMap(emb)[k]]
  {
  }

  /** Candidate `n` of split `j` becomes target `counter` in the mask and
      in the number-to-values map (data.py:546-548), with `cd'` its
      condition data once column `m` is appended. */
  method NumberTarget(req: Request, g: Grid, j: nat, n: nat, pm: array<int>, idx: map<int, seq<Cell>>,
                      cd: map<string, seq<Matrix>>, cd': map<string, seq<Matrix>>, counter: nat,
                      ghost m: map<string, Matrix>, ghost pairs: seq<(nat, seq<Cell>)>, ghost embs: seq<map<string, Matrix>>)
    returns (idx': map<int, seq<Cell>>)
    requires WellFormedRequest(req) && g.Valid() && j < |g.combs| && n < |g.cands| && g.Occupied(j, g.cands[n])
    requires Filled(req, g, pm[..], idx, cd, pairs, embs, j, n) && counter == |pairs|
    requires m.Keys == cd.Keys == cd'.Keys && forall k :: k in cd ==> cd'[k] == cd[k] + [m[k]]
    modifies pm
    ensures Filled(req, g, pm[..], idx', cd', pairs + [(j, g.cands[n])], embs + [m], j, n + 1)
  {
    ghost var before := pm[..];
    WriteMask(pm, TargetHits(g, g.combs[j], g.cands[n]), counter);
    TakeCandidate(req, g, before, idx, cd, pairs, embs, j, n, pm[..], cd', m);
    idx' := idx[counter := g.cands[n]];
  }

  /** Candidate `n` of split `j`, which has cells in the split, becomes
      target `counter` (data.py:545-566): its cells get the number in the
      mask, the number is mapped to its values, and its embedding is
      appended to the condition data; or the embedding fails. */
  method TakeTarget(req: Request, s: Setup, g: Grid, j: nat, n: nat, pm: array<int>, idx: map<int, seq<Cell>>,
                    cd: map<string, seq<Matrix>>, counter: nat,
                    ghost pairs: seq<(nat, seq<Cell>)>, ghost embs: seq<map<string, Matrix>>)
    returns (r: Result<(map<int, seq<Cell>>, map<string, seq<Matrix>>), Error>, ghost m: map<string, Matrix>)
    requires Linked(req, s) && g.Valid() && j < |g.combs| && n < |g.cands| && g.Occupied(j, g.cands[n])
    requires Filled(req, g, pm[..], idx, cd, pairs, embs, j, n) && counter == |pairs|
    requires AllEmbedded(req, s, g.keys, pairs, embs)
    modifies pm
    ensures r.Ok? ==> Filled(req, g, pm[..], r.value.0, r.value.1, pairs + [(j, g.cands[n])], embs + [m], j, n + 1)
    ensures r.Ok? ==> AllEmbedded(req, s, g.keys, pairs + [(j, g.cands[n])], embs + [m])
    ensures r.Err? ==> exists t :: FirstFailure(req, s, g, t, r.error)
  {
    ghost var before := pm[..];
    var emb := EmbedTarget(req, s, g.keys, g.cands[n]);
    if emb.Err? {
      FailureAt(req, s, g, j, n, pairs, embs, emb.error);
      return Err(emb.error), map[];
    }
    var cd' := AppendEmbedding(cd, emb.value);
    assert pm[..] == before;
    m := AsMap(emb.value);
    ColumnAppended(cd, emb.value, cd');
    EmbeddedAppend(req, s, g.keys, pairs, embs, j, g.cands[n], m);
    var idx' := NumberTarget(req, g, j, n, pm, idx, cd, cd', counter, m, pairs, embs);
    return Ok((idx', cd')), m;
  }

  /** Candidate `n` of split `j` (data.py:535-566): skipped when no cell
      of the split has its values, numbered as the next target otherwise. */
  method VisitCandidate(req: Request, s: Setup, g: Grid, j: nat, n: nat, pm: array<int>, idx: map<int, seq<Cell>>,
                        cd: map<string, seq<Matrix>>, counter: nat, dists: seq<int>,
                        ghost pairs: seq<(nat, seq<Cell>)>, ghost embs: seq<map<string, Matrix>>)
    returns (r: Result<Filling, Error>, ghost pairs': seq<(nat, seq<Cell>)>, ghost embs': seq<map<string, Matrix>>)
    requires Linked(req, s) && g.Valid() && j < |g.combs| && n < |g.cands|
    requires Filled(req, g, pm[..], idx, cd, pairs, embs, j, n) && counter == |pairs|
    requires AllEmbedded(req, s, g.keys, pairs, embs)
    requires Start(g, j) <= counter && dists == Range(Start(g, j), counter)
    modifies pm
    ensures r.Ok? ==> Filled(req, g, pm[..], r.value.idx, r.value.cd, pairs', embs', j, n + 1)
    ensures r.Ok? ==> r.value.counter == |pairs'| && AllEmbedded(req, s, g.keys, pairs', embs')
    ensures r.Ok? ==> Start(g, j) <= r.value.counter && r.value.dists == Range(Start(g, j), r.value.counter)
    ensures r.Err? ==> exists t :: FirstFailure(req, s, g, t, r.error)
  {
    var tgt := g.cands[n];
    var hits := TargetHits(g, g.combs[j], tgt);
    HitsOccupied(g, j, tgt);
    if CountTrue(hits) == 0 {
      SkipCandidate(req, g, pm[..], idx, cd, pairs, embs, j, n);
      return Ok(Filling(counter, idx, cd, dists)), pairs, embs;
    }
    var step;
    ghost var m;
    step, m := TakeTarget(req, s, g, j, n, pm, idx, cd, counter, pairs, embs);
    if step.Err? {
      return Err(step.error), pairs, embs;
    }
    RangeAppend(Start(g, j), counter);
    return Ok(Filling(counter + 1, step.value.0, step.value.1, dists + [counter])), pairs + [(j, tgt)], embs + [m];
  }

  /** Before the first candidate of split `j`, the split's number range
      starts at the count of the targets so far and is empty. */
  lemma FillBegins(req: Request, s: Setup, g: Grid, pm: seq<int>, idx: map<int, seq<Cell>>,
                   cd: map<string, seq<Matrix>>, pairs: seq<(nat, seq<Cell>)>, embs: seq<map<string, Matrix>>, j: nat)
    requires Linked(req, s) && g.Valid() && j < |g.combs|
    requires Filled(req, g, pm, idx, cd, pairs, embs, j, 0)
    ensures WellFormedRequest(req) && |pm| == |g.rows| && Start(g, j) == |pairs| && Range(|pairs|, |pairs|) == []
  {
    SplitBegins(g, j);
  }

  /** The inner loop of data.py:533-566 for split `j`: walk the candidates,
      skip those without cells in the split, and number the others in turn. */
  method FillSplit(req: Request, s: Setup, g: Grid, j: nat, pm: array<int>, idx0: map<int, seq<Cell>>,
                   cd0: map<string, seq<Matrix>>, counter0: nat,
                   ghost pairs0: seq<(nat, seq<Cell>)>, ghost embs0: seq<map<string, Matrix>>)
    returns (r: Result<Filling, Error>, ghost pairs: seq<(nat, seq<Cell>)>, ghost embs: seq<map<string, Matrix>>)
    requires Linked(req, s) && g.Valid() && j < |g.combs|
    requires Filled(req, g, pm[..], idx0, cd0, pairs0, embs0, j, 0) && counter0 == |pairs0|
    requires AllEmbedded(req, s, g.keys, pairs0, embs0)
    modifies pm
    ensures r.Ok? ==> Filled(req, g, pm[..], r.value.idx, r.value.cd, pairs, embs, j, |g.cands|)
    ensures r.Ok? ==> r.value.counter == |pairs| && AllEmbedded(req, s, g.keys, pairs, embs)
    ensures r.Ok? ==> r.value.dists == Range(Start(g, j), r.value.counter)
    ensures r.Err? ==> exists t :: FirstFailure(req, s, g, t, r.error)
  {
    // The loop only passes the state predicates on; their bodies are not needed.
    hide *;
    FillBegins(req, s, g, pm[..], idx0, cd0, pairs0, embs0, j);
    var idx, cd, counter := idx0, cd0, counter0;
    pairs, embs := pairs0, embs0;
    var dists: seq<int> := [];
    var n := 0;
    while n < |g.cands|
      invariant n <= |g.cands| && pm.Length == |g.rows|
      invariant Filled(req, g, pm[..], idx, cd, pairs, embs, j, n) && counter == |pairs|
      invariant AllEmbedded(req, s, g.keys, pairs, embs)
      invariant Start(g, j) <= counter && dists == Range(Start(g, j), counter)
    {
      var step;
      step, pairs, embs := VisitCandidate(req, s, g, j, n, pm, idx, cd, counter, dists, pairs, embs);
      if step.Err? {
        return Err(step.error), pairs, embs;
      }
      idx, cd, counter, dists := step.value.idx, step.value.cd, step.value.counter, step.value.dists;
      n := n + 1;
    }
    return Ok(Filling(counter, idx, cd, dists)), pairs, embs;
  }

  // ----------------------------------------------------------- enumeration

  /** `split_covariates_mask[split_cov_mask] = src_counter` for split `j`. */
  method MarkSplit(g: Grid, sm: array<int>, j: nat)
    requires g.Valid() && j < |g.combs| && SplitMasked(g, sm[..], j)
    modifies sm
    ensures SplitMasked(g, sm[..], j + 1)
  {
    ghost var before := sm[..];
    WriteMask(sm, SplitHits(g, g.combs[j]), 2 * j);
    SplitMaskStep(g, before, j, sm[..]);
  }

  /** One iteration of the outer loop (data.py:523-566): number the
      control population of split `j` and mark its cells, walk the
      candidates, then record the targets found under the next number. */
  method WalkSplit(req: Request, s: Setup, g: Grid, j: nat, sm: array<int>, pm: array<int>,
                   srcCounter: int, splitIdx: map<int, seq<Cell>>, ctp: map<int, seq<int>>,
                   idx: map<int, seq<Cell>>, cd: map<string, seq<Matrix>>, counter: nat,
                   ghost pairs: seq<(nat, seq<Cell>)>, ghost embs: seq<map<string, Matrix>>)
    returns (r: Result<Filling, Error>, srcCounter': int, splitIdx': map<int, seq<Cell>>, ctp': map<int, seq<int>>,
             ghost pairs': seq<(nat, seq<Cell>)>, ghost embs': seq<map<string, Matrix>>)
    requires Linked(req, s) && g.Valid() && j < |g.combs| && sm != pm
    requires srcCounter == 2 * j && splitIdx == SplitIndex(g, j) && ctp == ControlTargets(g, j)
    requires SplitMasked(g, sm[..], j)
    requires Filled(req, g, pm[..], idx, cd, pairs, embs, j, 0) && counter == |pairs|
    requires AllEmbedded(req, s, g.keys, pairs, embs)
    modifies sm, pm
    ensures SplitMasked(g, sm[..], j + 1)
    ensures r.Ok? ==> srcCounter' == 2 * (j + 1) && splitIdx' == SplitIndex(g, j + 1) && ctp' == ControlTargets(g, j + 1)
    ensures r.Ok? ==> Filled(req, g, pm[..], r.value.idx, r.value.cd, pairs', embs', j + 1, 0)
    ensures r.Ok? ==> r.value.counter == |pairs'| && AllEmbedded(req, s, g.keys, pairs', embs')
    ensures r.Err? ==> exists t :: FirstFailure(req, s, g, t, r.error)
  {
    ghost var before := pm[..];
    MarkSplit(g, sm, j);
    assert pm[..] == before;
    splitIdx' := splitIdx[srcCounter := g.combs[j]];
    srcCounter' := srcCounter + 1;
    ghost var marked := sm[..];
    r, pairs', embs' := FillSplit(req, s, g, j, pm, idx, cd, counter, pairs, embs);
    assert sm[..] == marked;
    ctp' := ctp;
    if r.Ok? {
      NextSplit(req, g, pm[..], r.value.idx, r.value.cd, pairs', embs', j);
      NumberSplit(g, j, splitIdx, ctp, r.value.dists, srcCounter');
      ctp' := ctp[srcCounter' := r.value.dists];
      srcCounter' := srcCounter' + 1;
    }
  }

  /** What the enumeration of data.py:503-566 produces: the two per-cell
      masks, the number-to-values maps of the control and target
      populations, the condition data and the targets of each control
      population. */
  datatype Populations = Populations(
    splitMask: seq<int>,
    splitIdxToCovariates: map<int, seq<Cell>>,
    perturbationMask: seq<int>,
    perturbationIdxToCovariates: map<int, seq<Cell>>,
    conditionData: map<string, seq<Matrix>>,
    controlToPerturbation: map<int, seq<int>>)

  /** The numbering of the populations: control population `i` is number
      `2 * i` in the split mask and in `splitIdxToCovariates`, and its
      targets are listed under `2 * i + 1`; target `t` is number `t` in the
      perturbation mask and in `perturbationIdxToCovariates`, and every cell
      carries the numbers of its own populations. */
  ghost predicate Layout(g: Grid, p: Populations)
    requires g.Valid()
  {
    && SplitMasked(g, p.splitMask, |g.combs|)
    && p.splitIdxToCovariates == SplitIndex(g, |g.combs|)
    && p.controlToPerturbation == ControlTargets(g, |g.combs|)
    && |p.perturbationMask| == |g.rows|
    && Masked(g, p.perturbationMask, Targets(g), |g.combs|, 0)
    && Indexed(p.perturbationIdxToCovariates, Targets(g))
  }

  /** The result of the enumeration: the populations laid out by `Layout`,
      one condition-data entry per covariate group, and the embedding of
      target `t` as column `t` of the condition data. */
  ghost predicate Enumerated(req: Request, s: Setup, g: Grid, p: Populations)
    requires Linked(req, s) && g.Valid()
  {
    && Layout(g, p)
    && (forall k :: k in p.conditionData <==> k in Keys(CovariateGroups(req)))
    && (forall k :: k in p.conditionData ==> |p.conditionData[k]| == |Targets(g)|)
    && forall t :: 0 <= t < |Targets(g)| ==>
         Embedded(InputsFor(req, s, g.keys, Targets(g)[t].1), s.encoder, Column(p.conditionData, t))
  }

  /** Enumerated populations embed every target, so no target fails. */
  lemma EnumeratedNoFailure(req: Request, s: Setup, g: Grid, p: Populations)
    requires Linked(req, s) && g.Valid() && Enumerated(req, s, g, p)
    ensures forall t :: 0 <= t < |Targets(g)| ==> !TargetFails(req, s, g, t)
  {
    forall t | 0 <= t < |Targets(g)| ensures !TargetFails(req, s, g, t) {
      assert Embedded(InputsFor(req, s, g.keys, Targets(g)[t].1), s.encoder, Column(p.conditionData, t));
    }
  }

  /** Once every split is walked, the numbered targets are all the targets
      and column `t` of the condition data is the embedding of target `t`. */
  lemma EnumerationDone(req: Request, s: Setup, g: Grid, p: Populations,
                        pairs: seq<(nat, seq<Cell>)>, embs: seq<map<string, Matrix>>)
    requires Linked(req, s) && g.Valid()
    requires SplitMasked(g, p.splitMask, |g.combs|)
    requires p.splitIdxToCovariates == SplitIndex(g, |g.combs|)
    requires p.controlToPerturbation == ControlTargets(g, |g.combs|)
    requires Filled(req, g, p.perturbationMask, p.perturbationIdxToCovariates, p.conditionData, pairs, embs, |g.combs|, 0)
    requires AllEmbedded(req, s, g.keys, pairs, embs)
    ensures Enumerated(req, s, g, p)
  {
    assert pairs == Targets(g);
    forall t | 0 <= t < |Targets(g)|
      ensures Embedded(InputsFor(req, s, g.keys, Targets(g)[t].1), s.encoder, Column(p.conditionData, t))
    {
      StackedColumns(p.conditionData, embs, t);
    }
  }

  /** Before the first split, no split is numbered and no target is
      embedded. */
  lemma WalkBegins(req: Request, s: Setup, g: Grid)
    requires Linked(req, s) && g.Valid()
    ensures WellFormedRequest(req) && SplitIndex(g, 0) == map[] && ControlTargets(g, 0) == map[]
    ensures AllEmbedded(req, s, g.keys, [], [])
  {
  }

  /** The loop of data.py:523-566 over the splits of `g`, starting from
      the fresh masks and the empty condition data `cd`. */
  method WalkSplits(req: Request, s: Setup, g: Grid, sm: array<int>, pm: array<int>, cd0: map<string, seq<Matrix>>)
    returns (r: Result<Populations, Error>)
    requires Linked(req, s) && g.Valid() && sm != pm
    requires SplitMasked(g, sm[..], 0) && Filled(req, g, pm[..], map[], cd0, [], [], 0, 0)
    modifies sm, pm
    ensures r.Err? ==> exists t :: FirstFailure(req, s, g, t, r.error)
    ensures r.Ok? ==> Enumerated(req, s, g, r.value)
  {
    // The loop only passes the state predicates on; their bodies are not needed.
    hide *;
    WalkBegins(req, s, g);
    var splitIdx: map<int, seq<Cell>> := map[];
    var ctp: map<int, seq<int>> := map[];
    var idx: map<int, seq<Cell>> := map[];
    var cd := cd0;
    var srcCounter, tgtCounter := 0, 0;
    ghost var pairs: seq<(nat, seq<Cell>)> := [];
    ghost var embs: seq<map<string, Matrix>> := [];
    var j := 0;
    while j < |g.combs|
      invariant j <= |g.combs| && srcCounter == 2 * j
      invariant SplitMasked(g, sm[..], j) && splitIdx == SplitIndex(g, j) && ctp == ControlTargets(g, j)
      invariant Filled(req, g, pm[..], idx, cd, pairs, embs, j, 0) && tgtCounter == |pairs|
      invariant AllEmbedded(req, s, g.keys, pairs, embs)
    {
      var fill;
      fill, srcCounter, splitIdx, ctp, pairs, embs := WalkSplit(req, s, g, j, sm, pm, srcCounter, splitIdx, ctp,
                                                                idx, cd, tgtCounter, pairs, embs);
      if fill.Err? {
        return Err(fill.error);
      }
      idx, cd, tgtCounter := fill.value.idx, fill.value.cd, fill.value.counter;
      j := j + 1;
    }
    var p := Populations(sm[..], splitIdx, pm[..], idx, cd, ctp);
    EnumerationDone(req, s, g, p, pairs, embs);
    r := Ok(p);
  }

  /** Masks with every cell unassigned and empty per-key lists are the
      state before the first split. */
  lemma Unwalked(req: Request, s: Setup, g: Grid, sm: seq<int>, pm: seq<int>, cd: map<string, seq<Matrix>>)
    requires Linked(req, s) && g.Valid()
    requires |sm| == |pm| == |g.rows| && forall c :: 0 <= c < |g.rows| ==> sm[c] == -1 && pm[c] == -1
    requires forall k :: k in cd <==> k in Keys(CovariateGroups(req))
    requires forall k :: k in cd ==> cd[k] == []
    ensures SplitMasked(g, sm, 0) && Filled(req, g, pm, map[], cd, [], [], 0, 0)
  {
  }

  /** `np.full(n, -1)`: a fresh mask with every cell unassigned. */
  method NewMask(n: nat) returns (mask: array<int>)
    ensures fresh(mask) && mask.Length == n && forall c :: 0 <= c < n ==> mask[c] == -1
  {
    mask := new int[n](_ => -1);
  }

  /** The enumeration of data.py:503-566 over the grid `g`: one control
      population per split combination, one target population per split and
      covariate combination with cells, and the embedding of each target.
      It fails exactly when the embedding of some target fails. */
  method Enumerate(req: Request, s: Setup, g: Grid) returns (r: Result<Populations, Error>)
    requires Linked(req, s) && g.Valid()
    requires forall k :: k in s.covarToIdx <==> k in Keys(CovariateGroups(req))
    ensures r.Err? ==> exists t :: FirstFailure(req, s, g, t, r.error)
    ensures r.Ok? ==> Enumerated(req, s, g, r.value)
  {
    hide *;
    var sm := NewMask(|g.rows|);
    var pm := NewMask(|g.rows|);
    var cd: map<string, seq<Matrix>> := map k | k in s.covarToIdx :: [];
    Unwalked(req, s, g, sm[..], pm[..], cd);
    r := WalkSplits(req, s, g, sm, pm, cd);
  }

  // ----------------------------------------------------------------- loader

  /** The validations and set-up of data.py:470-501, in the order they run:
      the checks' first failure is raised; once they pass, loading fails
      only when the primary group cannot be classified; and what is
      computed is the setup of the request. */
  method Prepare(req: Request) returns (r: Result<Setup, Error>)
    requires WellFormedRequest(req) && Environment(req)
    ensures Checks(req).Fail? ==> r == Err(Checks(req).error)
    ensures Checks(req).Pass? ==> (r.Ok? <==> Classifiable(req.obs, req.perturbation[0].1, req.toFloat))
    ensures Checks(req).Pass? && r.Err? ==> r.error == CovariateTypeError(req.obs, req.perturbation[0].1, req.toFloat)
    ensures r.Ok? ==> Admissible(req) && Prepared(req, r.value)
  {
    ChecksPass(req);
    var control := VerifyControlData(req.obs, req.controlKey, req.toBool);
    if control.Err? {
      return Err(control.error);
    }
    var perturbation := VerifyPerturbationCovariates(req.obs.columns, req.perturbation);
    if perturbation.Fail? {
      return Err(perturbation.error);
    }
    var links := GetLinkedCovariates(req.perturbation);
    if links.Err? {
      return Err(links.error);
    }
    var samples := VerifySampleCovariates(req.obs.columns, req.samples);
    if samples.Fail? {
      return Err(samples.error);
    }
    var groups := CovariateGroups(req);
    var reps := VerifyCovariateReps(req.uns, CovariateReps(req), Keys(groups));
    if reps.Fail? {
      return Err(reps.error);
    }
    var splits := VerifySplitCovariates(req.obs.columns, req.splits);
    if splits.Fail? {
      return Err(splits.error);
    }
    // the perturbation groups were checked to be non-empty, so this succeeds
    var maxLength := GetMaxCombinationLength(req.perturbation, req.maxLength);
    var (idxToCovar, covarToIdx) := GetIdxToCovariate(Keys(groups));
    var encoder :- GetPrimaryCovarEncoder(req.obs, req.perturbation, req.perturbationReps, req.toFloat);
    LinkedShapeLinks(req.perturbation, links.value);
    r := Ok(Setup(links.value, maxLength.value, idxToCovar, covarToIdx, encoder));
  }

  /** Where `cell_data` is read from. */
  datatype CellSource = AdataX | Obsm(key: string) | Attribute(attr: string, key: string)

  /** `_get_cell_data` (data.py:65-83): `"X"` reads `adata.X` even when
      `adata.obsm` has a key `"X"`; another name must be a key of
      `adata.obsm`; a dictionary is read through its first entry, and an
      empty one raises. */
  function CellDataSource(rep: SampleRep, obsmKeys: set<string>): (r: Result<CellSource, Error>)
    ensures r.Ok? && rep.RepName? ==> (r.value.AdataX? <==> rep.name == "X")
    ensures r.Ok? && rep.RepName? && rep.name != "X" ==> r.value == Obsm(rep.name) && rep.name in obsmKeys
    ensures r.Ok? && rep.RepAttribute? ==> |rep.entries| > 0 && r.value == Attribute(rep.entries[0].0, rep.entries[0].1)
    ensures r.Err? <==> if rep.RepName? then rep.name != "X" && rep.name !in obsmKeys else rep.entries == []
    ensures r.Err? ==> r.error == if rep.RepName? then InvalidSampleRep else EmptySampleRep
  {
    match rep
    case RepName(name) =>
      if name == "X" then Ok(AdataX)
      else if name !in obsmKeys then Err(InvalidSampleRep)
      else Ok(Obsm(name))
    case RepAttribute(entries) =>
      if |entries| == 0 then Err(EmptySampleRep)
      else Ok(Attribute(entries[0].0, entries[0].1))
  }

  /** The `TrainingData` container `load_from_adata` returns. */
  datatype TrainingData = TrainingData(
    cellData: CellSource,
    populations: Populations,
    maxCombinationLength: int,
    nullValue: real)

  /** The grid the loader walks for `req`. */
  function GridOfRequest(req: Request): (g: Grid)
    ensures g.Valid() && g.rows == req.obs.rows && g.keys == CovariateKeys(req)
  {
    GridOf(req.obs.rows, req.splits, CovariateKeys(req))
  }

  /** With the setup `s` of `req`, the embedding of every target of its
      grid can be built. */
  ghost predicate EmbeddingsOk(req: Request, s: Setup)
    requires WellFormedRequest(req) && Prepared(req, s)
  {
    forall t :: 0 <= t < |Targets(GridOfRequest(req))| ==> !TargetFails(req, s, GridOfRequest(req), t)
  }

  /** `d` is what the loader returns for `req` with its setup `s`: the cell
      data source, the populations laid out by `Layout`, the slot count,
      the padding value, and the embedding of target `t` as column `t` of
      the condition data, one entry per covariate group. */
  ghost predicate Loaded(req: Request, s: Setup, d: TrainingData)
    requires WellFormedRequest(req) && Prepared(req, s)
  {
    var g := GridOfRequest(req);
    && CellDataSource(req.sampleRep, req.obsmKeys) == Ok(d.cellData)
    && d.maxCombinationLength == s.maxLength && d.nullValue == req.nullValue
    && Enumerated(req, s, g, d.populations)
  }

  /** The first comparison `adata.obs[perturb_covar_keys] ==
      list(tgt_cond.values)` of data.py:537-541. With a repeated key,
      `tgt_cond[perturb_covar_keys]` takes every column of that name once
      per occurrence, so the list is longer than the frame is wide and
      pandas raises `ValueError`. The comparison first runs on the first
      candidate of the first split combination, and there is one exactly
      when `obs` has a row. */
  function CompareConditions(req: Request): (r: Outcome<Error>)
    ensures r.Fail? <==>
      |req.obs.rows| > 0 && exists i, j :: 0 <= i < j < |CovariateKeys(req)| && CovariateKeys(req)[i] == CovariateKeys(req)[j]
    ensures r.Fail? ==> r.error == ComparisonLengthMismatch(|CovariateKeys(req)|)
  {
    var keys := CovariateKeys(req);
    HasRepeatMeans(keys);
    if |req.obs.rows| > 0 && HasRepeat(keys) then Fail(ComparisonLengthMismatch(|keys|)) else Pass
  }

  /** The rest of `load_from_adata` once its setup `s` is computed
      (data.py:503-583): the first comparison raises when a covariate key
      repeats; otherwise enumerate, then read the cell data. */
  method LoadPrepared(req: Request, s: Setup) returns (r: Result<TrainingData, Error>)
    requires WellFormedRequest(req) && Environment(req) && Prepared(req, s)
    ensures CompareConditions(req).Fail? ==> r == Err(CompareConditions(req).error)
    ensures CompareConditions(req).Pass? && !EmbeddingsOk(req, s) ==>
      r.Err? && exists t :: FirstFailure(req, s, GridOfRequest(req), t, r.error)
    ensures CompareConditions(req).Pass? && EmbeddingsOk(req, s) ==>
      (r.Ok? <==> CellDataSource(req.sampleRep, req.obsmKeys).Ok?)
    ensures CompareConditions(req).Pass? && EmbeddingsOk(req, s) && r.Err? ==>
      r.error == CellDataSource(req.sampleRep, req.obsmKeys).error
    ensures r.Ok? ==> CompareConditions(req).Pass? && EmbeddingsOk(req, s) && Loaded(req, s, r.value)
  {
    var compared := CompareConditions(req);
    if compared.Fail? {
      return Err(compared.error);
    }
    var g := GridOfRequest(req);
    var populations := Enumerate(req, s, g);
    if populations.Err? {
      return Err(populations.error);
    }
    EnumeratedNoFailure(req, s, g, populations.value);
    var cellData :- CellDataSource(req.sampleRep, req.obsmKeys);
    r := Ok(TrainingData(cellData, populations.value, s.maxLength, req.nullValue));
  }

  /** `TrainingData.load_from_adata` (data.py:437-583). It raises the first
      failing check; once the checks pass it fails exactly when the primary
      group cannot be classified, when a covariate key repeats in a
      non-empty `obs`, when the embedding of some target fails, or when the
      cell data cannot be read, and in that order of precedence; otherwise
      it returns the loaded data. */
  method LoadFromAdata(req: Request) returns (r: Result<TrainingData, Error>, ghost s: Setup)
    requires WellFormedRequest(req) && Environment(req)
    ensures Checks(req).Fail? ==> r == Err(Checks(req).error)
    ensures Checks(req).Pass? && !Classifiable(req.obs, req.perturbation[0].1, req.toFloat) ==>
      r == Err(CovariateTypeError(req.obs, req.perturbation[0].1, req.toFloat))
    ensures Admissible(req) ==> Prepared(req, s)
    ensures Admissible(req) && CompareConditions(req).Fail? ==> r == Err(CompareConditions(req).error)
    ensures Admissible(req) && CompareConditions(req).Pass? && !EmbeddingsOk(req, s) ==>
      r.Err? && exists t :: FirstFailure(req, s, GridOfRequest(req), t, r.error)
    ensures Admissible(req) && CompareConditions(req).Pass? && EmbeddingsOk(req, s) ==>
      (r.Ok? <==> CellDataSource(req.sampleRep, req.obsmKeys).Ok?)
    ensures Admissible(req) && CompareConditions(req).Pass? && EmbeddingsOk(req, s) && r.Err? ==>
      r.error == CellDataSource(req.sampleRep, req.obsmKeys).error
    ensures r.Ok? ==> Admissible(req) && CompareConditions(req).Pass? && EmbeddingsOk(req, s) && Loaded(req, s, r.value)
  {
    s := Setup(map[], 0, map[], map[], NoEncoder);
    var setup := Prepare(req);
    if setup.Err? {
      return Err(setup.error), s;
    }
    var prepared := setup.value;
    s := prepared;
    r := LoadPrepared(req, prepared);
  }
}
