/** The enumeration skeleton of `ValidationData.load_from_adata`
    (data.py:685-799): fail fast when the validation covariates combine more
    values than the training data allows; otherwise walk every combination
    of split categories, keep those with control cells as sources numbered
    0, 1, ..., and within each source number the observed covariate
    combinations that have perturbed cells in it. The cell data of a
    population is the list of its cells, and the embedding of a population
    comes from a parameter. */
module Validation {
  import opened Wrappers
  import opened Tables
  import opened Dicts
  import opened Covariates

  /** An embedding array: its shape and its entries in row-major order. */
  datatype Tensor = Tensor(shape: seq<nat>, entries: seq<real>)

  /** `jnp.expand_dims(emb, 0)`: a leading axis of size one. */
  function ExpandDims(t: Tensor): (r: Tensor)
    ensures |r.shape| == |t.shape| + 1 && r.shape[0] == 1 && r.shape[1..] == t.shape
    ensures r.entries == t.entries
  {
    Tensor([1] + t.shape, t.entries)
  }

  /** The arguments of `load_from_adata`. Each split column's categories
      (`cat.categories`), whether an `obs` column already has the category
      dtype, and the embedding of a population are parameters;
      `controlHelper` is the column `CONTROL_HELPER` that stands in for the
      split columns when there are none. */
  datatype ValidationRequest = ValidationRequest(
    obs: Obs,
    controlColumn: string,
    controlValue: Cell,
    splits: seq<string>,
    obsGroups: seq<seq<string>>,
    unsGroups: Dict<seq<string>>,
    maxLength: int,
    controlHelper: string,
    categories: string -> seq<Cell>,
    categorical: string -> bool,
    embed: seq<nat> -> map<string, Tensor>)

  /** The `ValidationData` container: cells of each source, cells of each
      target of each source, and their embeddings (`None` when there are no
      perturbation covariates). */
  datatype ValidationData = ValidationData(
    srcData: map<int, seq<nat>>,
    tgtData: map<int, map<int, seq<nat>>>,
    conditionData: Option<map<int, map<int, map<string, Tensor>>>>,
    maxCombinationLength: int)

  // -------------------------------------------------- combination length

  /** The longest group, 0 when there is none. */
  function LongestGroup(groups: seq<seq<string>>): (n: nat)
    ensures forall i :: 0 <= i < |groups| ==> |groups[i]| <= n
    ensures n == 0 || exists i :: 0 <= i < |groups| && |groups[i]| == n
  {
    if groups == [] then 0
    else
      var rest := LongestGroup(groups[1..]);
      assert forall i :: 1 <= i < |groups| ==> groups[i] == groups[1..][i - 1];
      if |groups[0]| >= rest then |groups[0]| else rest
  }

  function Values<V>(d: Dict<V>): (vs: seq<V>)
    ensures |vs| == |d| && forall i :: 0 <= i < |d| ==> vs[i] == d[i].1
  {
    seq(|d|, i requires 0 <= i < |d| => d[i].1)
  }

  /** `observed_combination_length`: the longer of the longest `obs` group
      and the longest `uns` group. */
  function ObservedLength(v: ValidationRequest): (n: nat)
    ensures forall i :: 0 <= i < |v.obsGroups| ==> |v.obsGroups[i]| <= n
    ensures forall i :: 0 <= i < |v.unsGroups| ==> |v.unsGroups[i].1| <= n
    ensures n == 0 || (exists i :: 0 <= i < |v.obsGroups| && |v.obsGroups[i]| == n)
                    || (exists i :: 0 <= i < |v.unsGroups| && |v.unsGroups[i].1| == n)
  {
    var obsLength := LongestGroup(v.obsGroups);
    var unsLength := LongestGroup(Values(v.unsGroups));
    if obsLength >= unsLength then obsLength else unsLength
  }

  // ------------------------------------------------------------- sources

  /** The split columns, or the helper column when there are none. */
  function SplitColumns(v: ValidationRequest): (cols: seq<string>)
    ensures |cols| > 0
  {
    if v.splits == [] then [v.controlHelper] else v.splits
  }

  /** The categories of each split column; the helper column has the single
      category `True`. */
  function SplitCategories(v: ValidationRequest): (cats: seq<seq<Cell>>)
    ensures |cats| == |SplitColumns(v)|
  {
    if v.splits == [] then [[Flag(true)]]
    else seq(|v.splits|, i requires 0 <= i < |v.splits| => v.categories(v.splits[i]))
  }

  /** The split values of cell `c`; every cell has `True` in the helper
      column. */
  function SplitValues(v: ValidationRequest, c: nat): (vs: seq<Cell>)
    requires c < |v.obs.rows|
  {
    if v.splits == [] then [Flag(true)] else Project(v.obs.rows[c], v.splits)
  }

  /** `[x] + rest` for every `rest`. */
  function Prepend(x: Cell, rests: seq<seq<Cell>>): (r: seq<seq<Cell>>)
    ensures |r| == |rests| && forall i :: 0 <= i < |rests| ==> r[i] == [x] + rests[i]
  {
    seq(|rests|, i requires 0 <= i < |rests| => [x] + rests[i])
  }

  /** `[x] + rest` for every `x` of `firsts`, then every `rest`. */
  function Extend(firsts: seq<Cell>, rests: seq<seq<Cell>>): (r: seq<seq<Cell>>)
    ensures |r| == |firsts| * |rests|
  {
    if firsts == [] then [] else Prepend(firsts[0], rests) + Extend(firsts[1..], rests)
  }

  /** `itertools.product(*lists)`: the last list varies fastest. */
  function Product(lists: seq<seq<Cell>>): (r: seq<seq<Cell>>)
    decreases |lists|
  {
    if lists == [] then [[]] else Extend(lists[0], Product(lists[1..]))
  }

  /** The product of the lengths. */
  function Count(lists: seq<seq<Cell>>): nat
    decreases |lists|
  {
    if lists == [] then 1 else |lists[0]| * Count(lists[1..])
  }

  lemma {:induction false} ExtendMembers(firsts: seq<Cell>, rests: seq<seq<Cell>>, p: seq<Cell>)
    ensures p in Extend(firsts, rests) <==> |p| > 0 && p[0] in firsts && p[1..] in rests
  {
    if firsts != [] {
      ExtendMembers(firsts[1..], rests, p);
      if p in Prepend(firsts[0], rests) {
        var i :| 0 <= i < |rests| && Prepend(firsts[0], rests)[i] == p;
        assert p[1..] == rests[i];
      }
      if |p| > 0 && p[0] == firsts[0] && p[1..] in rests {
        var i :| 0 <= i < |rests| && rests[i] == p[1..];
        assert Prepend(firsts[0], rests)[i] == p;
      }
    }
  }

  /** The combinations of the product are exactly the sequences taking
      their `i`-th value from list `i`, and there are as many as the
      product of the lengths. */
  lemma {:induction false} ProductMembers(lists: seq<seq<Cell>>, p: seq<Cell>)
    ensures p in Product(lists) <==> |p| == |lists| && forall i :: 0 <= i < |lists| ==> p[i] in lists[i]
    ensures |Product(lists)| == Count(lists)
    decreases |lists|
  {
    if lists != [] {
      ProductMembers(lists[1..], if |p| > 0 then p[1..] else []);
      ExtendMembers(lists[0], Product(lists[1..]), p);
      if |p| == |lists| && forall i :: 0 <= i < |lists| ==> p[i] in lists[i] {
        assert forall i :: 0 <= i < |lists[1..]| ==> p[1..][i] in lists[1..][i] by {
          forall i | 0 <= i < |lists[1..]| ensures p[1..][i] in lists[1..][i] {
            assert p[1..][i] == p[i + 1] && lists[1..][i] == lists[i + 1];
          }
        }
      }
      if p in Product(lists) {
        forall i | 0 <= i < |lists| ensures p[i] in lists[i] {
          if i > 0 {
            assert p[1..][i - 1] == p[i] && lists[1..][i - 1] == lists[i];
          }
        }
      }
    } else {
      assert Product(lists) == [[]];
    }
  }

  /** `src_dists`: every combination of split categories. */
  function Sources(v: ValidationRequest): seq<seq<Cell>> {
    Product(SplitCategories(v))
  }

  /** `control_mask`: the control column of cell `c` equals the control
      value under pandas `==`, so a missing control value marks no cell. */
  predicate IsControl(v: ValidationRequest, c: nat)
    requires c < |v.obs.rows|
  {
    Get(v.obs.rows[c], v.controlColumn) == v.controlValue && !v.controlValue.Null?
  }

  /** `split_cov_mask * control_mask` for source `comb`. A combination
      holding a missing category matches no cell under pandas `==`, even a
      cell whose own category is missing. */
  function SourceMask(v: ValidationRequest, comb: seq<Cell>): (m: seq<bool>)
    ensures |m| == |v.obs.rows|
    ensures forall c :: 0 <= c < |m| ==> m[c] == ((Complete(comb) && SplitValues(v, c) == comb) && IsControl(v, c))
  {
    seq(|v.obs.rows|, c requires 0 <= c < |v.obs.rows| => (Complete(comb) && SplitValues(v, c) == comb) && IsControl(v, c))
  }

  /** The cells selected by a mask are those of its prefix followed by the
      last cell when it is selected. */
  lemma WhereStep(mask: seq<bool>, front: seq<nat>, last: seq<nat>)
    requires |mask| > 0
    requires forall c: int {:trigger c in front} :: c in front <==> 0 <= c < |mask| - 1 && mask[..|mask| - 1][c]
    requires forall a, b :: 0 <= a < b < |front| ==> front[a] < front[b]
    requires |front| == CountTrue(mask[..|mask| - 1])
    requires last == if mask[|mask| - 1] then [|mask| - 1] else []
    ensures forall c: int {:trigger c in front + last} :: c in front + last <==> 0 <= c < |mask| && mask[c]
    ensures forall a, b :: 0 <= a < b < |front + last| ==> (front + last)[a] < (front + last)[b]
    ensures |front + last| == CountTrue(mask)
  {
    var cells := front + last;
    forall c: int ensures c in cells <==> 0 <= c < |mask| && mask[c] {
      assert c in cells <==> c in front || c in last;
    }
    forall a, b | 0 <= a < b < |cells| ensures cells[a] < cells[b] {
      assert cells[a] == front[a] && front[a] in front;
      if b < |front| {
        assert cells[b] == front[b];
      }
    }
  }

  /** `adata[mask]`: the selected cells, in order. */
  function Where(mask: seq<bool>): (cells: seq<nat>)
    ensures forall c: int {:trigger c in cells} :: c in cells <==> 0 <= c < |mask| && mask[c]
    ensures forall a, b :: 0 <= a < b < |cells| ==> cells[a] < cells[b]
    ensures |cells| == CountTrue(mask)
  {
    if mask == [] then []
    else
      var front := Where(mask[..|mask| - 1]);
      var last := if mask[|mask| - 1] then [|mask| - 1] else [];
      WhereStep(mask, front, last);
      front + last
  }

  /** Split combination `comb` has control cells. */
  function HasControlCells(v: ValidationRequest): seq<Cell> -> bool {
    comb => CountTrue(SourceMask(v, comb)) != 0
  }

  // ------------------------------------------------------------- targets

  function Flatten(groups: seq<seq<string>>): (r: seq<string>)
    ensures forall k :: k in r <==> exists i :: 0 <= i < |groups| && k in groups[i]
  {
    if groups == [] then []
    else
      var rest := Flatten(groups[1..]);
      assert forall i :: 1 <= i < |groups| ==> groups[i] == groups[1..][i - 1];
      assert forall k :: k in rest ==> exists i :: 1 <= i < |groups| && k in groups[i];
      groups[0] + rest
  }

  /** `tgt_dist_obs.keys()` after the update: the `obs` covariates, then the
      new `uns` covariates, each once. */
  function TargetKeys(v: ValidationRequest): seq<string> {
    Distinct(Flatten(v.obsGroups) + Flatten(Values(v.unsGroups)))
  }

  /** `observed_tgt_combs`: the distinct covariate rows. */
  function Observed(v: ValidationRequest): seq<seq<Cell>> {
    Distinct(ProjectAll(v.obs.rows, TargetKeys(v)))
  }

  /** The perturbed cells of source `comb` with covariate values `tgt`;
      as in `SourceMask`, a row `tgt` or `comb` with a missing value
      selects no cell. */
  function TargetMask(v: ValidationRequest, comb: seq<Cell>, tgt: seq<Cell>): (m: seq<bool>)
    ensures |m| == |v.obs.rows|
    ensures forall c :: 0 <= c < |m| ==>
      m[c] == ((Complete(tgt) && Project(v.obs.rows[c], TargetKeys(v)) == tgt) && !IsControl(v, c) && (Complete(comb) && SplitValues(v, c) == comb))
  {
    seq(|v.obs.rows|, c requires 0 <= c < |v.obs.rows| =>
      (Complete(tgt) && Project(v.obs.rows[c], TargetKeys(v)) == tgt) && !IsControl(v, c) && (Complete(comb) && SplitValues(v, c) == comb))
  }

  /** Observed row `tgt` has perturbed cells in source `comb`. */
  function HasTargetCells(v: ValidationRequest, comb: seq<Cell>): seq<Cell> -> bool {
    tgt => CountTrue(TargetMask(v, comb, tgt)) != 0
  }

  /** There are perturbation covariates, so `condition_data` is a
      dictionary rather than `None`. */
  predicate Conditional(v: ValidationRequest) {
    v.obsGroups != [] || v.unsGroups != []
  }

  /** The stored embedding of a population: every array gains a leading
      axis. */
  function Condition(v: ValidationRequest, cells: seq<nat>): map<string, Tensor>
  {
    map k | k in v.embed(cells) :: ExpandDims(v.embed(cells)[k])
  }

  // ---------------------------------------------------------- numbering

  /** The candidates among the first `n` that satisfy `keep`, in order:
      what survives the `continue` of a loop over `cands`. */
  function Kept<K>(cands: seq<K>, keep: K -> bool, n: nat): (r: seq<K>)
    requires n <= |cands|
    ensures |r| <= n
  {
    if n == 0 then []
    else Kept(cands, keep, n - 1) + if keep(cands[n - 1]) then [cands[n - 1]] else []
  }

  /** What is kept is exactly the candidates satisfying `keep`, in the
      order of the candidates. */
  lemma {:induction false} KeptMembers<K>(cands: seq<K>, keep: K -> bool, n: nat, x: K)
    requires n <= |cands|
    ensures x in Kept(cands, keep, n) <==> keep(x) && x in cands[..n]
    ensures n == |cands| ==> (x in Kept(cands, keep, n) <==> keep(x) && x in cands)
  {
    if n > 0 {
      KeptMembers(cands, keep, n - 1, x);
      assert cands[..n] == cands[..n - 1] + [cands[n - 1]];
    }
    assert n == |cands| ==> cands[..n] == cands;
  }

  /** `d` holds, under numbers 0, 1, ..., one entry for each of `keys`,
      standing in relation `R` to its key: the last key under the last
      number, the others numbered the same way below it. */
  ghost predicate NumberedBy<K, T>(keys: seq<K>, R: (K, T) -> bool, d: map<int, T>)
    decreases |keys|
  {
    if keys == [] then d == map[]
    else
      var last := |keys| - 1;
      && last in d && R(keys[last], d[last])
      && NumberedBy(keys[..last], R, d - {last})
  }

  /** The numbers in use are exactly 0 .. |keys| - 1, and entry `t`
      belongs to key `t`. */
  lemma {:induction false} NumberedByMeans<K, T>(keys: seq<K>, R: (K, T) -> bool, d: map<int, T>)
    ensures NumberedBy(keys, R, d) <==>
      (forall t :: t in d <==> 0 <= t < |keys|) && (forall t :: 0 <= t < |keys| ==> R(keys[t], d[t]))
    decreases |keys|
  {
    if keys == [] {
      if forall t :: t !in d {
        assert d.Keys == {};
        assert d == map[];
      }
    } else {
      var last := |keys| - 1;
      var init, rest := keys[..last], d - {last};
      NumberedByMeans(init, R, rest);
      if (forall t :: t in d <==> 0 <= t < |keys|) && (forall t :: 0 <= t < |keys| ==> R(keys[t], d[t])) {
        assert forall t :: t in rest <==> 0 <= t < |init|;
        assert forall t :: 0 <= t < |init| ==> init[t] == keys[t] && t in rest && rest[t] == d[t];
      }
      if NumberedBy(keys, R, d) {
        assert forall t :: t in d <==> t in rest || t == last;
        forall t | 0 <= t < |keys| ensures t in d && R(keys[t], d[t]) {
          if t < last {
            assert t in rest;
            assert init[t] == keys[t] && rest[t] == d[t];
          }
        }
      }
    }
  }

  /** Walking candidate `n`: when it is kept it is numbered next, with an
      entry `y` related to it; otherwise nothing changes. */
  lemma NumberKept<K, T>(cands: seq<K>, keep: K -> bool, R: (K, T) -> bool, n: nat, d: map<int, T>, y: T)
    requires n < |cands| && NumberedBy(Kept(cands, keep, n), R, d)
    requires keep(cands[n]) ==> R(cands[n], y)
    ensures |Kept(cands, keep, n + 1)| == |Kept(cands, keep, n)| + if keep(cands[n]) then 1 else 0
    ensures NumberedBy(Kept(cands, keep, n + 1), R, if keep(cands[n]) then d[|Kept(cands, keep, n)| := y] else d)
  {
    var keys := Kept(cands, keep, n);
    if keep(cands[n]) {
      NumberedByMeans(keys, R, d);
      assert Kept(cands, keep, n + 1) == keys + [cands[n]];
      assert (keys + [cands[n]])[..|keys|] == keys;
      assert d[|keys| := y] - {|keys|} == d;
    } else {
      assert Kept(cands, keep, n + 1) == keys;
    }
  }

  // -------------------------------------------------------------- result

  /** The sources: split combinations with control cells, in product
      order. */
  function KeptSources(v: ValidationRequest): seq<seq<Cell>> {
    Kept(Sources(v), HasControlCells(v), |Sources(v)|)
  }

  /** The targets of source `comb`: observed rows with perturbed cells in
      it, in observed order. */
  function KeptTargets(v: ValidationRequest, comb: seq<Cell>): seq<seq<Cell>> {
    Kept(Observed(v), HasTargetCells(v, comb), |Observed(v)|)
  }

  /** The cells of a target of source `comb`. */
  ghost function TargetCells(v: ValidationRequest, comb: seq<Cell>): (seq<Cell>, seq<nat>) -> bool {
    (tgt: seq<Cell>, cells: seq<nat>) => cells == Where(TargetMask(v, comb, tgt))
  }

  /** The embedding of a target of source `comb`. */
  ghost function TargetCondition(v: ValidationRequest, comb: seq<Cell>): (seq<Cell>, map<string, Tensor>) -> bool {
    (tgt: seq<Cell>, m: map<string, Tensor>) => m == Condition(v, Where(TargetMask(v, comb, tgt)))
  }

  /** `td` and `cd` hold, under numbers 0, 1, ..., the cells and the
      embeddings of the targets `tgts` of source `comb`. */
  ghost predicate TargetsFilled(v: ValidationRequest, comb: seq<Cell>, tgts: seq<seq<Cell>>,
                                td: map<int, seq<nat>>, cd: map<int, map<string, Tensor>>)
  {
    && NumberedBy(tgts, TargetCells(v, comb), td)
    && (Conditional(v) ==> NumberedBy(tgts, TargetCondition(v, comb), cd))
    && (!Conditional(v) ==> cd == map[])
  }

  /** The control cells of a source. */
  ghost function SourceCells(v: ValidationRequest): (seq<Cell>, seq<nat>) -> bool {
    (comb: seq<Cell>, cells: seq<nat>) => cells == Where(SourceMask(v, comb))
  }

  /** The target cells of a source, numbered. */
  ghost function SourceTargets(v: ValidationRequest, observed: seq<seq<Cell>>): (seq<Cell>, map<int, seq<nat>>) -> bool {
    (comb: seq<Cell>, td: map<int, seq<nat>>) =>
      NumberedBy(Kept(observed, HasTargetCells(v, comb), |observed|), TargetCells(v, comb), td)
  }

  /** The target embeddings of a source, numbered. */
  ghost function SourceConditions(v: ValidationRequest, observed: seq<seq<Cell>>): (seq<Cell>, map<int, map<string, Tensor>>) -> bool {
    (comb: seq<Cell>, cd: map<int, map<string, Tensor>>) =>
      NumberedBy(Kept(observed, HasTargetCells(v, comb), |observed|), TargetCondition(v, comb), cd)
  }

  /** The three dictionaries hold, under numbers 0, 1, ..., the sources
      `srcs`: each one's control cells, and its targets. */
  ghost predicate SourcesFilled(v: ValidationRequest, observed: seq<seq<Cell>>, srcs: seq<seq<Cell>>,
                                sd: map<int, seq<nat>>, td: map<int, map<int, seq<nat>>>,
                                cd: map<int, map<int, map<string, Tensor>>>)
  {
    && NumberedBy(srcs, SourceCells(v), sd)
    && NumberedBy(srcs, SourceTargets(v, observed), td)
    && (Conditional(v) ==> NumberedBy(srcs, SourceConditions(v, observed), cd))
    && (!Conditional(v) ==> cd == map[])
  }

  /** `d` is what the loader returns for `v`. */
  ghost predicate Assembled(v: ValidationRequest, d: ValidationData) {
    var cd := if d.conditionData.Some? then d.conditionData.value else map[];
    && SourcesFilled(v, Observed(v), KeptSources(v), d.srcData, d.tgtData, cd)
    && (d.conditionData.Some? <==> Conditional(v))
    && d.maxCombinationLength == v.maxLength
  }

  // ------------------------------------------------------------- loader

  /** The split-column check of data.py:703-707: the first split column
      missing from `adata.obs` raises. */
  method CheckSplitColumns(v: ValidationRequest) returns (r: Outcome<Error>)
    ensures r.Pass? <==> forall i :: 0 <= i < |v.splits| ==> v.splits[i] in v.obs.columns
    ensures r.Fail? ==> exists i :: (0 <= i < |v.splits| && r.error == SplitCovariateNotFound(v.splits[i])
      && v.splits[i] !in v.obs.columns && forall h :: 0 <= h < i ==> v.splits[h] in v.obs.columns)
  {
    var i := 0;
    while i < |v.splits|
      invariant 0 <= i <= |v.splits|
      invariant forall h :: 0 <= h < i ==> v.splits[h] in v.obs.columns
    {
      if v.splits[i] !in v.obs.columns {
        return Fail(SplitCovariateNotFound(v.splits[i]));
      }
      i := i + 1;
    }
    return Pass;
  }

  /** The perturbation covariates in the order the `tgt_dist_obs` and
      `tgt_dist_uns` comprehensions read them: every `obs` group, then every
      `uns` group. */
  function PerturbationColumns(v: ValidationRequest): seq<string> {
    Flatten(v.obsGroups) + Flatten(Values(v.unsGroups))
  }

  /** `adata.obs[k].cat.categories` can be read: `k` is a split column,
      which data.py:703-709 has made categorical (or the helper column), or
      an `obs` column of the category dtype. */
  predicate HasCategories(v: ValidationRequest, k: string) {
    k in SplitColumns(v) || (k in v.obs.columns && v.categorical(k))
  }

  /** What reading `adata.obs[k].cat.categories` raises when it cannot:
      `KeyError` for an absent column, else `AttributeError` for a column
      without the `.cat` accessor. */
  function CategoriesError(v: ValidationRequest, k: string): (e: Error)
    requires !HasCategories(v, k)
    ensures e == ColumnKeyError(Some(k)) <==> k !in v.obs.columns
    ensures e == NoCategoryAccessor(k) <==> k in v.obs.columns
  {
    if k in v.obs.columns then NoCategoryAccessor(k) else ColumnKeyError(Some(k))
  }

  /** The perturbation-covariate reads of data.py:721-730: the first
      covariate whose categories cannot be read raises. */
  method CheckCategories(v: ValidationRequest) returns (r: Outcome<Error>)
    ensures r.Pass? <==> forall i :: 0 <= i < |PerturbationColumns(v)| ==> HasCategories(v, PerturbationColumns(v)[i])
    ensures r.Fail? ==> exists i :: (0 <= i < |PerturbationColumns(v)| && !HasCategories(v, PerturbationColumns(v)[i])
      && r.error == CategoriesError(v, PerturbationColumns(v)[i])
      && forall h :: 0 <= h < i ==> HasCategories(v, PerturbationColumns(v)[h]))
  {
    var cols := PerturbationColumns(v);
    var i := 0;
    while i < |cols|
      invariant 0 <= i <= |cols|
      invariant forall h :: 0 <= h < i ==> HasCategories(v, cols[h])
    {
      if !HasCategories(v, cols[i]) {
        return Fail(CategoriesError(v, cols[i]));
      }
      i := i + 1;
    }
    return Pass;
  }

  /** One pass of the inner loop of data.py:768-797: observed row `n`
      gets the next target number in source `comb` when it has perturbed
      cells there. */
  method NumberTarget(v: ValidationRequest, comb: seq<Cell>, observed: seq<seq<Cell>>, n: nat, tgtCounter: nat,
                      td: map<int, seq<nat>>, cd: map<int, map<string, Tensor>>)
    returns (tgtCounter': nat, td': map<int, seq<nat>>, cd': map<int, map<string, Tensor>>)
    requires n < |observed| && tgtCounter == |Kept(observed, HasTargetCells(v, comb), n)|
    requires TargetsFilled(v, comb, Kept(observed, HasTargetCells(v, comb), n), td, cd)
    ensures tgtCounter' == |Kept(observed, HasTargetCells(v, comb), n + 1)|
    ensures TargetsFilled(v, comb, Kept(observed, HasTargetCells(v, comb), n + 1), td', cd')
  {
    var mask := TargetMask(v, comb, observed[n]);
    NumberKept(observed, HasTargetCells(v, comb), TargetCells(v, comb), n, td, Where(mask));
    if Conditional(v) {
      NumberKept(observed, HasTargetCells(v, comb), TargetCondition(v, comb), n, cd, Condition(v, Where(mask)));
    }
    tgtCounter', td', cd' := tgtCounter, td, cd;
    if CountTrue(mask) != 0 {
      var cells := Where(mask);
      td' := td[tgtCounter := cells];
      cd' := if Conditional(v) then cd[tgtCounter := Condition(v, cells)] else cd;
      tgtCounter' := tgtCounter + 1;
    }
  }

  /** The inner loop of data.py:768-797 for source `comb`: number the
      rows of `observed` that have perturbed cells in the source. */
  method CollectTargets(v: ValidationRequest, comb: seq<Cell>, observed: seq<seq<Cell>>)
    returns (td: map<int, seq<nat>>, cd: map<int, map<string, Tensor>>)
    ensures TargetsFilled(v, comb, Kept(observed, HasTargetCells(v, comb), |observed|), td, cd)
  {
    td, cd := map[], map[];
    var tgtCounter := 0;
    var n := 0;
    while n < |observed|
      invariant 0 <= n <= |observed|
      invariant tgtCounter == |Kept(observed, HasTargetCells(v, comb), n)|
      invariant TargetsFilled(v, comb, Kept(observed, HasTargetCells(v, comb), n), td, cd)
    {
      tgtCounter, td, cd := NumberTarget(v, comb, observed, n, tgtCounter, td, cd);
      n := n + 1;
    }
  }

  /** One pass of the outer loop of data.py:756-799: split combination
      `p` becomes the next source, with its targets, when it has control
      cells. */
  method NumberSource(v: ValidationRequest, observed: seq<seq<Cell>>, p: nat, srcCounter: nat,
                      sd: map<int, seq<nat>>, td: map<int, map<int, seq<nat>>>,
                      cd: map<int, map<int, map<string, Tensor>>>)
    returns (srcCounter': nat, sd': map<int, seq<nat>>, td': map<int, map<int, seq<nat>>>,
             cd': map<int, map<int, map<string, Tensor>>>)
    requires p < |Sources(v)| && srcCounter == |Kept(Sources(v), HasControlCells(v), p)|
    requires SourcesFilled(v, observed, Kept(Sources(v), HasControlCells(v), p), sd, td, cd)
    ensures srcCounter' == |Kept(Sources(v), HasControlCells(v), p + 1)|
    ensures SourcesFilled(v, observed, Kept(Sources(v), HasControlCells(v), p + 1), sd', td', cd')
  {
    var comb := Sources(v)[p];
    var mask := SourceMask(v, comb);
    NumberKept(Sources(v), HasControlCells(v), SourceCells(v), p, sd, Where(mask));
    srcCounter', sd', td', cd' := srcCounter, sd, td, cd;
    if CountTrue(mask) == 0 {
      NumberKept(Sources(v), HasControlCells(v), SourceTargets(v, observed), p, td, map[]);
      if Conditional(v) {
        NumberKept(Sources(v), HasControlCells(v), SourceConditions(v, observed), p, cd, map[]);
      }
    } else {
      var targets, conditions := CollectTargets(v, comb, observed);
      NumberKept(Sources(v), HasControlCells(v), SourceTargets(v, observed), p, td, targets);
      if Conditional(v) {
        NumberKept(Sources(v), HasControlCells(v), SourceConditions(v, observed), p, cd, conditions);
      }
      sd' := sd[srcCounter := Where(mask)];
      td' := td[srcCounter := targets];
      cd' := if Conditional(v) then cd[srcCounter := conditions] else cd;
      srcCounter' := srcCounter + 1;
    }
  }

  /** The outer loop of data.py:756-799: keep the split combinations with
      control cells as sources, numbered consecutively, each with its
      targets among `observed`. */
  method CollectSources(v: ValidationRequest, observed: seq<seq<Cell>>)
    returns (sd: map<int, seq<nat>>, td: map<int, map<int, seq<nat>>>, cd: map<int, map<int, map<string, Tensor>>>)
    ensures SourcesFilled(v, observed, KeptSources(v), sd, td, cd)
  {
    sd, td, cd := map[], map[], map[];
    var srcCounter := 0;
    var p := 0;
    while p < |Sources(v)|
      invariant 0 <= p <= |Sources(v)|
      invariant srcCounter == |Kept(Sources(v), HasControlCells(v), p)|
      invariant SourcesFilled(v, observed, Kept(Sources(v), HasControlCells(v), p), sd, td, cd)
    {
      srcCounter, sd, td, cd := NumberSource(v, observed, p, srcCounter, sd, td, cd);
      p := p + 1;
    }
  }

  /** `ValidationData.load_from_adata`, enumeration skeleton: raise when
      the observed combination length exceeds the training maximum, then
      when a split column is missing, then when a perturbation covariate's
      categories cannot be read, else assemble the populations. */
  method LoadFromAdata(v: ValidationRequest) returns (r: Result<ValidationData, Error>)
    ensures ObservedLength(v) > v.maxLength ==> r == Err(CombinationTooLong(ObservedLength(v), v.maxLength))
    ensures r.Ok? <==>
      && ObservedLength(v) <= v.maxLength
      && (forall i :: 0 <= i < |v.splits| ==> v.splits[i] in v.obs.columns)
      && (forall i :: 0 <= i < |PerturbationColumns(v)| ==> HasCategories(v, PerturbationColumns(v)[i]))
    ensures ObservedLength(v) <= v.maxLength && (exists i :: 0 <= i < |v.splits| && v.splits[i] !in v.obs.columns) ==>
      exists i :: (0 <= i < |v.splits| && v.splits[i] !in v.obs.columns && r == Err(SplitCovariateNotFound(v.splits[i]))
      && forall h :: 0 <= h < i ==> v.splits[h] in v.obs.columns)
    ensures ObservedLength(v) <= v.maxLength && (forall i :: 0 <= i < |v.splits| ==> v.splits[i] in v.obs.columns) && r.Err? ==>
      exists i :: (0 <= i < |PerturbationColumns(v)| && !HasCategories(v, PerturbationColumns(v)[i])
      && r == Err(CategoriesError(v, PerturbationColumns(v)[i]))
      && forall h :: 0 <= h < i ==> HasCategories(v, PerturbationColumns(v)[h]))
    ensures r.Ok? ==> Assembled(v, r.value)
  {
    var length := ObservedLength(v);
    if length > v.maxLength {
      return Err(CombinationTooLong(length, v.maxLength));
    }
    var splits := CheckSplitColumns(v);
    if splits.Fail? {
      return Err(splits.error);
    }
    var categories := CheckCategories(v);
    if categories.Fail? {
      return Err(categories.error);
    }
    var sd, td, cd := CollectSources(v, Observed(v));
    var conditions := if Conditional(v) then Some(cd) else None;
    r := Ok(ValidationData(sd, td, conditions, v.maxLength));
  }

  // ---------------------------------------------------------- properties

  /** A mask has a set entry exactly when its count is not zero. */
  lemma SomeSet(mask: seq<bool>)
    ensures CountTrue(mask) != 0 <==> exists c :: 0 <= c < |mask| && mask[c]
  {
  }

  /** The sources are exactly the combinations of split categories that
      pandas `==` matches to at least one control cell. */
  lemma KeptSourcesMembers(v: ValidationRequest, comb: seq<Cell>)
    ensures comb in KeptSources(v) <==>
      && |comb| == |SplitColumns(v)|
      && (forall j :: 0 <= j < |comb| ==> comb[j] in SplitCategories(v)[j])
      && exists c :: 0 <= c < |v.obs.rows| && IsControl(v, c) && (Complete(comb) && SplitValues(v, c) == comb)
  {
    KeptMembers(Sources(v), HasControlCells(v), |Sources(v)|, comb);
    ProductMembers(SplitCategories(v), comb);
    SomeSet(SourceMask(v, comb));
  }

  /** The targets of a source are exactly the covariate rows that pandas
      `==` matches to its perturbed cells. */
  lemma KeptTargetsMembers(v: ValidationRequest, comb: seq<Cell>, tgt: seq<Cell>)
    ensures tgt in KeptTargets(v, comb) <==>
      exists c :: 0 <= c < |v.obs.rows| && !IsControl(v, c) && (Complete(comb) && SplitValues(v, c) == comb)
                  && (Complete(tgt) && Project(v.obs.rows[c], TargetKeys(v)) == tgt)
  {
    KeptMembers(Observed(v), HasTargetCells(v, comb), |Observed(v)|, tgt);
    var mask := TargetMask(v, comb, tgt);
    SomeSet(mask);
    if exists c :: 0 <= c < |mask| && mask[c] {
      var c :| 0 <= c < |mask| && mask[c];
      assert Project(v.obs.rows[c], TargetKeys(v)) == tgt;
      var all := ProjectAll(v.obs.rows, TargetKeys(v));
      assert all[c] == Project(v.obs.rows[c], TargetKeys(v));
      InDistinct(all, c);
    }
  }

  /** Without split covariates every cell falls in the single helper
      category, so there is one source exactly when there is a control
      cell. */
  lemma NoSplitsOneSource(v: ValidationRequest)
    requires v.splits == []
    ensures KeptSources(v) == if exists c :: 0 <= c < |v.obs.rows| && IsControl(v, c) then [[Flag(true)]] else []
  {
    var helper := [Flag(true)];
    assert SplitCategories(v) == [[Flag(true)]];
    assert Product([[Flag(true)]]) == [helper] by {
      assert [[Flag(true)]][1..] == [];
      assert Product([[Flag(true)]][1..]) == [[]];
      assert [Flag(true)][1..] == [];
      assert Extend([Flag(true)], [[]]) == Prepend(Flag(true), [[]]) + Extend([], [[]]);
      var pre := Prepend(Flag(true), [[]]);
      assert |pre| == 1 && pre[0] == [Flag(true)] + [];
      assert [Flag(true)] + [] == helper;
      assert pre == [helper];
    }
    assert Sources(v) == [helper];
    assert Kept(Sources(v), HasControlCells(v), 0) == [];
    SomeSet(SourceMask(v, helper));
  }

  /** A row with a missing value is observed but never kept: no source
      and no target holds one. */
  lemma KeptHaveNoMissing(v: ValidationRequest, comb: seq<Cell>, tgt: seq<Cell>)
    ensures comb in KeptSources(v) ==> Null !in comb
    ensures tgt in KeptTargets(v, comb) ==> Null !in tgt && Null !in comb
  {
    KeptSourcesMembers(v, comb);
    KeptTargetsMembers(v, comb, tgt);
  }

  /** Entry `i` of filled source dictionaries holds the control cells of
      source `i`. */
  lemma SourceCellsFilled(v: ValidationRequest, observed: seq<seq<Cell>>, srcs: seq<seq<Cell>>,
                          sd: map<int, seq<nat>>, td: map<int, map<int, seq<nat>>>,
                          cd: map<int, map<int, map<string, Tensor>>>, i: int, c: int)
    requires SourcesFilled(v, observed, srcs, sd, td, cd) && 0 <= i < |srcs|
    ensures i in sd
    ensures c in sd[i] <==> 0 <= c < |v.obs.rows| && IsControl(v, c) && (Complete(srcs[i]) && SplitValues(v, c) == srcs[i])
  {
    NumberedByMeans(srcs, SourceCells(v), sd);
    var mask := SourceMask(v, srcs[i]);
    assert sd[i] == Where(mask);
    assert c in sd[i] <==> 0 <= c < |mask| && mask[c];
  }

  /** Entry `i` of filled target dictionaries numbers the targets of
      source `i`, and target `t` holds that target's perturbed cells. */
  lemma TargetCellsFilled(v: ValidationRequest, observed: seq<seq<Cell>>, srcs: seq<seq<Cell>>,
                          sd: map<int, seq<nat>>, td: map<int, map<int, seq<nat>>>,
                          cd: map<int, map<int, map<string, Tensor>>>, i: int, t: int, c: int)
    requires SourcesFilled(v, observed, srcs, sd, td, cd) && 0 <= i < |srcs|
    ensures i in td
    ensures t in td[i] <==> 0 <= t < |Kept(observed, HasTargetCells(v, srcs[i]), |observed|)|
    ensures t in td[i] ==>
      (c in td[i][t] <==>
        && 0 <= c < |v.obs.rows| && !IsControl(v, c) && (Complete(srcs[i]) && SplitValues(v, c) == srcs[i])
        && (Complete(Kept(observed, HasTargetCells(v, srcs[i]), |observed|)[t]) && Project(v.obs.rows[c], TargetKeys(v)) == Kept(observed, HasTargetCells(v, srcs[i]), |observed|)[t]))
  {
    NumberedByMeans(srcs, SourceTargets(v, observed), td);
    var comb := srcs[i];
    var tgts := Kept(observed, HasTargetCells(v, comb), |observed|);
    assert NumberedBy(tgts, TargetCells(v, comb), td[i]);
    NumberedByMeans(tgts, TargetCells(v, comb), td[i]);
    if 0 <= t < |tgts| {
      var mask := TargetMask(v, comb, tgts[t]);
      assert td[i][t] == Where(mask);
      assert c in td[i][t] <==> 0 <= c < |mask| && mask[c];
    }
  }

  /** In assembled data, source `i` holds exactly the control cells of the
      `i`-th kept split combination. */
  lemma SourceCellsAssembled(v: ValidationRequest, d: ValidationData, i: int, c: int)
    requires Assembled(v, d) && 0 <= i < |KeptSources(v)|
    ensures i in d.srcData
    ensures c in d.srcData[i] <==>
      0 <= c < |v.obs.rows| && IsControl(v, c) && (Complete(KeptSources(v)[i]) && SplitValues(v, c) == KeptSources(v)[i])
  {
    var cd := if d.conditionData.Some? then d.conditionData.value else map[];
    SourceCellsFilled(v, Observed(v), KeptSources(v), d.srcData, d.tgtData, cd, i, c);
  }

  /** In assembled data, source `i` has one entry per target of its split
      combination, and target `t` holds exactly the perturbed cells of
      that combination with the target's covariate values. */
  lemma TargetCellsAssembled(v: ValidationRequest, d: ValidationData, i: int, t: int, c: int)
    requires Assembled(v, d) && 0 <= i < |KeptSources(v)|
    ensures i in d.tgtData
    ensures t in d.tgtData[i] <==> 0 <= t < |KeptTargets(v, KeptSources(v)[i])|
    ensures t in d.tgtData[i] ==>
      (c in d.tgtData[i][t] <==>
        && 0 <= c < |v.obs.rows| && !IsControl(v, c) && (Complete(KeptSources(v)[i]) && SplitValues(v, c) == KeptSources(v)[i])
        && (Complete(KeptTargets(v, KeptSources(v)[i])[t]) && Project(v.obs.rows[c], TargetKeys(v)) == KeptTargets(v, KeptSources(v)[i])[t]))
  {
    var cd := if d.conditionData.Some? then d.conditionData.value else map[];
    TargetCellsFilled(v, Observed(v), KeptSources(v), d.srcData, d.tgtData, cd, i, t, c);
  }
}
