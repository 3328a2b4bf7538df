/** What the numbering of `TrainingData.load_from_adata` (data.py:503-571)
    guarantees: targets are numbered split by split and, within a split, in
    first-appearance order of the covariate rows; exactly the combinations
    with cells in the split are numbered, each once; every target number is
    listed under exactly one control population; the masks put two cells
    in the same population exactly when they agree on its columns; and, as
    pandas `==` never matches a missing value, a cell with a missing split
    or covariate value stays unassigned. */
module TargetNumbering {
  import opened Tables
  import opened Training

  /** The targets of split `j` among the first `n` candidates are
      candidates before `n` with cells in the split. */
  lemma {:induction false} SplitTargetsIn(g: Grid, j: nat, n: nat)
    requires g.Valid() && j < |g.combs| && n <= |g.cands|
    ensures forall i :: 0 <= i < |SplitTargets(g, j, n)| ==>
      && SplitTargets(g, j, n)[i] in g.cands
      && IndexOf(g.cands, SplitTargets(g, j, n)[i]) < n
      && g.Occupied(j, SplitTargets(g, j, n)[i])
  {
    if n > 0 {
      var prev := SplitTargets(g, j, n - 1);
      SplitTargetsIn(g, j, n - 1);
      IndexOfUnique(g.cands, n - 1);
      if g.Occupied(j, g.cands[n - 1]) {
        assert SplitTargets(g, j, n) == prev + [g.cands[n - 1]];
      } else {
        assert SplitTargets(g, j, n) == prev;
      }
    }
  }

  /** They come in candidate order. */
  lemma {:induction false} SplitTargetsOrdered(g: Grid, j: nat, n: nat)
    requires g.Valid() && j < |g.combs| && n <= |g.cands|
    ensures forall a, b :: 0 <= a < b < |SplitTargets(g, j, n)| ==>
      && SplitTargets(g, j, n)[a] in g.cands && SplitTargets(g, j, n)[b] in g.cands
      && IndexOf(g.cands, SplitTargets(g, j, n)[a]) < IndexOf(g.cands, SplitTargets(g, j, n)[b])
  {
    if n > 0 {
      var prev := SplitTargets(g, j, n - 1);
      SplitTargetsOrdered(g, j, n - 1);
      SplitTargetsIn(g, j, n - 1);
      IndexOfUnique(g.cands, n - 1);
      if g.Occupied(j, g.cands[n - 1]) {
        var ts := SplitTargets(g, j, n);
        assert ts == prev + [g.cands[n - 1]];
        forall a, b | 0 <= a < b < |ts|
          ensures ts[a] in g.cands && ts[b] in g.cands && IndexOf(g.cands, ts[a]) < IndexOf(g.cands, ts[b])
        {
          assert ts[a] == prev[a];
          if b < |prev| {
            assert ts[b] == prev[b];
          } else {
            assert ts[b] == g.cands[n - 1] && IndexOf(g.cands, prev[a]) < n - 1;
          }
        }
      } else {
        assert SplitTargets(g, j, n) == prev;
      }
    } else {
      assert SplitTargets(g, j, n) == [];
    }
  }

  /** Every candidate before `n` with cells in split `j` is one of them. */
  lemma {:induction false} SplitTargetsComplete(g: Grid, j: nat, n: nat, m: nat)
    requires g.Valid() && j < |g.combs| && m < n <= |g.cands| && g.Occupied(j, g.cands[m])
    ensures g.cands[m] in SplitTargets(g, j, n)
  {
    var prev := SplitTargets(g, j, n - 1);
    if m < n - 1 {
      SplitTargetsComplete(g, j, n - 1, m);
      assert SplitTargets(g, j, n) == prev || SplitTargets(g, j, n) == prev + [g.cands[n - 1]];
    } else {
      assert SplitTargets(g, j, n) == prev + [g.cands[m]];
    }
  }

  /** Target `t` among the splits before `j` sits in the number range of
      its own split, at its position among that split's targets. */
  lemma {:induction false} TargetsBeforeAt(g: Grid, j: nat, t: nat)
    requires j <= |g.combs| && t < |TargetsBefore(g, j)|
    ensures var p := TargetsBefore(g, j)[t];
      && p.0 < j && Start(g, p.0) <= t < Start(g, p.0 + 1)
      && t - Start(g, p.0) < |SplitTargets(g, p.0, |g.cands|)|
      && p.1 == SplitTargets(g, p.0, |g.cands|)[t - Start(g, p.0)]
  {
    var prev := TargetsBefore(g, j - 1);
    var ts := SplitTargets(g, j - 1, |g.cands|);
    assert TargetsBefore(g, j) == prev + Tag(j - 1, ts);
    if t < |prev| {
      TargetsBeforeAt(g, j - 1, t);
    }
  }

  /** Target numbers grow with the split: `Start` is monotone. */
  lemma StartMonotone(g: Grid, i: nat, k: nat)
    requires i <= k <= |g.combs|
    ensures Start(g, i) <= Start(g, k)
  {
    TargetsBeforePrefix(g, i, k);
  }

  /** Target `Start(g, j) + i` is the `i`-th target of split `j`. */
  lemma TargetAt(g: Grid, j: nat, i: nat)
    requires j < |g.combs| && i < |SplitTargets(g, j, |g.cands|)|
    ensures Start(g, j) + i < |Targets(g)| && Targets(g)[Start(g, j) + i] == (j, SplitTargets(g, j, |g.cands|)[i])
  {
    var ts := SplitTargets(g, j, |g.cands|);
    assert TargetsBefore(g, j + 1) == TargetsBefore(g, j) + Tag(j, ts);
    TargetsBeforePrefix(g, j + 1, |g.combs|);
  }

  /** Every target has cells: target `t` lies in the number range of its
      split, and some cell of that split has its covariate values. */
  lemma TargetOccupied(g: Grid, t: nat)
    requires g.Valid() && t < |Targets(g)|
    ensures var p := Targets(g)[t];
      p.0 < |g.combs| && Start(g, p.0) <= t < Start(g, p.0 + 1) && g.Occupied(p.0, p.1) && p.1 in g.cands
  {
    TargetsBeforeAt(g, |g.combs|, t);
    SplitTargetsIn(g, Targets(g)[t].0, |g.cands|);
  }

  /** The number range of split `i` holds target `t` exactly when `t` is a
      target of split `i`. */
  lemma InSplitRange(g: Grid, t: nat, i: nat)
    requires g.Valid() && t < |Targets(g)| && i < |g.combs|
    ensures Start(g, i) <= t < Start(g, i + 1) <==> i == Targets(g)[t].0
  {
    hide *;
    var j := Targets(g)[t].0;
    TargetOccupied(g, t);
    if i < j {
      StartMonotone(g, i + 1, j);
    } else if j < i {
      StartMonotone(g, j + 1, i);
    }
  }

  /** Every split and covariate combination that pandas matches to some
      cell is a target. */
  lemma TargetsComplete(g: Grid, j: nat, tgt: seq<Cell>)
    requires g.Valid() && j < |g.combs| && g.Occupied(j, tgt)
    ensures exists t :: 0 <= t < |Targets(g)| && Targets(g)[t] == (j, tgt)
  {
    var c :| 0 <= c < |g.rows| && Project(g.rows[c], g.splits) == g.combs[j] && Project(g.rows[c], g.keys) == tgt;
    var m := IndexOf(g.cands, tgt);
    SplitTargetsComplete(g, j, |g.cands|, m);
    var ts := SplitTargets(g, j, |g.cands|);
    var i :| 0 <= i < |ts| && ts[i] == g.cands[m];
    TargetAt(g, j, i);
  }

  /** Target `t` is a candidate, numbered in the range of its split at its
      position among that split's targets. */
  lemma TargetPlace(g: Grid, t: nat)
    requires g.Valid() && t < |Targets(g)|
    ensures var p := Targets(g)[t];
      && p.0 < |g.combs| && p.1 in g.cands
      && Start(g, p.0) <= t < Start(g, p.0 + 1)
      && t - Start(g, p.0) < |SplitTargets(g, p.0, |g.cands|)|
      && p.1 == SplitTargets(g, p.0, |g.cands|)[t - Start(g, p.0)]
  {
    TargetsBeforeAt(g, |g.combs|, t);
    SplitTargetsIn(g, Targets(g)[t].0, |g.cands|);
  }

  /** Within split `j`, position order is candidate order. */
  lemma SplitPositionsOrdered(g: Grid, j: nat, a: nat, b: nat)
    requires g.Valid() && j < |g.combs|
    requires a < |SplitTargets(g, j, |g.cands|)| && b < |SplitTargets(g, j, |g.cands|)|
    ensures SplitTargets(g, j, |g.cands|)[a] in g.cands && SplitTargets(g, j, |g.cands|)[b] in g.cands
    ensures a < b <==> IndexOf(g.cands, SplitTargets(g, j, |g.cands|)[a]) < IndexOf(g.cands, SplitTargets(g, j, |g.cands|)[b])
  {
    SplitTargetsIn(g, j, |g.cands|);
    SplitTargetsOrdered(g, j, |g.cands|);
  }

  /** Targets are numbered split by split and, within a split, in
      candidate order (the order in which the covariate rows first appear
      in `adata.obs`). */
  lemma TargetsOrdered(g: Grid, t: nat, u: nat)
    requires g.Valid() && t < |Targets(g)| && u < |Targets(g)|
    ensures Targets(g)[t].1 in g.cands && Targets(g)[u].1 in g.cands
    ensures var p, q := Targets(g)[t], Targets(g)[u];
      t < u <==> p.0 < q.0 || (p.0 == q.0 && IndexOf(g.cands, p.1) < IndexOf(g.cands, q.1))
  {
    var p, q := Targets(g)[t], Targets(g)[u];
    TargetPlace(g, t);
    TargetPlace(g, u);
    if p.0 < q.0 {
      StartMonotone(g, p.0 + 1, q.0);
      assert t < u;
    } else if q.0 < p.0 {
      StartMonotone(g, q.0 + 1, p.0);
      assert u < t;
    } else {
      var a, b := t - Start(g, p.0), u - Start(g, q.0);
      SplitPositionsOrdered(g, p.0, a, b);
    }
  }

  /** No two numbers name the same target. */
  lemma TargetsDistinct(g: Grid, t: nat, u: nat)
    requires g.Valid() && t < |Targets(g)| && u < |Targets(g)|
    ensures Targets(g)[t] == Targets(g)[u] <==> t == u
  {
    TargetsOrdered(g, t, u);
    TargetsOrdered(g, u, t);
  }

  /** `x` is listed in `a, a+1, ..., b-1` exactly when it lies between. */
  lemma {:induction false} InRange(a: int, b: int, x: int)
    ensures x in Range(a, b) <==> a <= x < b
    decreases b - a
  {
    if a < b {
      InRange(a, b - 1, x);
    }
  }

  /** Position `i` of `a, a+1, ..., b-1` holds `a + i`. */
  lemma {:induction false} RangeAt(a: int, b: int, i: nat)
    requires i < |Range(a, b)|
    ensures Range(a, b)[i] == a + i
    decreases b - a
  {
    if i < |Range(a, b)| - 1 {
      RangeAt(a, b - 1, i);
    }
  }

  /** `a, a+1, ..., b-1` is ascending. */
  lemma RangeAscending(a: int, b: int)
    ensures forall x, y :: 0 <= x < y < |Range(a, b)| ==> Range(a, b)[x] < Range(a, b)[y]
  {
    forall x, y | 0 <= x < y < |Range(a, b)| ensures Range(a, b)[x] < Range(a, b)[y] {
      RangeAt(a, b, x);
      RangeAt(a, b, y);
    }
  }

  /** `control_to_perturbation` lists every target number under exactly
      one key, `2 * j + 1` for the split `j` of the target, and every list
      is ascending. */
  lemma ControlTargetsPartition(g: Grid, t: nat, k: int)
    requires g.Valid() && t < |Targets(g)|
    ensures 2 * Targets(g)[t].0 + 1 in ControlTargets(g, |g.combs|)
    ensures k in ControlTargets(g, |g.combs|) ==> (t in ControlTargets(g, |g.combs|)[k] <==> k == 2 * Targets(g)[t].0 + 1)
    ensures k in ControlTargets(g, |g.combs|) ==>
      forall a, b :: 0 <= a < b < |ControlTargets(g, |g.combs|)[k]| ==>
        ControlTargets(g, |g.combs|)[k][a] < ControlTargets(g, |g.combs|)[k][b]
  {
    TargetOccupied(g, t);
    ControlTargetsContents(g, |g.combs|);
    if k in ControlTargets(g, |g.combs|) {
      var i := (k - 1) / 2;
      assert k == 2 * i + 1 && i < |g.combs|;
      assert ControlTargets(g, |g.combs|)[2 * i + 1] == Range(Start(g, i), Start(g, i + 1));
      InSplitRange(g, t, i);
      InRange(Start(g, i), Start(g, i + 1), t);
      RangeAscending(Start(g, i), Start(g, i + 1));
    }
  }

  /** A cell without a missing split or covariate value carries a target
      number, which names the cell's covariate values in
      `perturbation_idx_to_covariates`; any other cell keeps -1, since
      pandas matches it to no candidate. Two numbered cells share a number
      exactly when they are in the same split and have the same covariate
      values. */
  lemma PerturbationMaskSame(g: Grid, p: Populations, c: nat, d: nat)
    requires g.Valid() && Layout(g, p) && c < |g.rows| && d < |g.rows|
    ensures !g.Numbered(c) ==> p.perturbationMask[c] == -1
    ensures g.Numbered(c) ==> 0 <= p.perturbationMask[c] && p.perturbationMask[c] in p.perturbationIdxToCovariates
    ensures g.Numbered(c) ==> p.perturbationIdxToCovariates[p.perturbationMask[c]] == Project(g.rows[c], g.keys)
    ensures g.Numbered(c) && g.Numbered(d) ==> (p.perturbationMask[c] == p.perturbationMask[d] <==>
      Project(g.rows[c], g.splits) == Project(g.rows[d], g.splits) && Project(g.rows[c], g.keys) == Project(g.rows[d], g.keys))
  {
    if g.Numbered(c) && g.Numbered(d) {
      TargetsDistinct(g, p.perturbationMask[c], p.perturbationMask[d]);
      if Project(g.rows[c], g.splits) == Project(g.rows[d], g.splits) {
        IndexOfUnique(g.combs, g.SplitOf(c));
      }
    }
  }

  /** A cell without a missing split value carries `2 * j` for its split
      `j` in the split mask, which names the split's values in
      `split_idx_to_covariates`; any other cell keeps -1. Two such cells
      share a value exactly when they agree on the split columns. */
  lemma SplitMaskSame(g: Grid, p: Populations, c: nat, d: nat)
    requires g.Valid() && Layout(g, p) && c < |g.rows| && d < |g.rows|
    ensures !g.InSplitMask(c) ==> p.splitMask[c] == -1
    ensures g.InSplitMask(c) ==> p.splitMask[c] == 2 * g.SplitOf(c) && p.splitMask[c] in p.splitIdxToCovariates
    ensures g.InSplitMask(c) ==> p.splitIdxToCovariates[p.splitMask[c]] == Project(g.rows[c], g.splits)
    ensures g.InSplitMask(c) && g.InSplitMask(d) ==>
      (p.splitMask[c] == p.splitMask[d] <==> Project(g.rows[c], g.splits) == Project(g.rows[d], g.splits))
  {
    SplitIndexContents(g, |g.combs|);
    if Project(g.rows[c], g.splits) == Project(g.rows[d], g.splits) {
      IndexOfUnique(g.combs, g.SplitOf(c));
    }
  }

  /** No target holds a missing value, and neither does its split
      combination: `drop_duplicates` keeps such combinations, but pandas
      `==` matches no cell to them, so the loader skips them. */
  lemma TargetsHaveNoMissing(g: Grid, t: nat)
    requires g.Valid() && t < |Targets(g)|
    ensures Targets(g)[t].0 < |g.combs|
    ensures Null !in Targets(g)[t].1 && Null !in g.combs[Targets(g)[t].0]
  {
    TargetOccupied(g, t);
  }

  /** One cell whose only covariate `dose` is missing, and no split
      covariates: the candidate `[NaN]` is skipped, so the cell keeps -1 and
      there is no target. */
  lemma MissingDoseSkipped(p: Populations)
    requires Layout(GridOf([map["dose" := Null]], [], ["dose"]), p)
    ensures p.perturbationMask == [-1]
    ensures Targets(GridOf([map["dose" := Null]], [], ["dose"])) == []
  {
    var g := GridOf([map["dose" := Null]], [], ["dose"]);
    assert Project(g.rows[0], g.keys) == [Null];
    PerturbationMaskSame(g, p, 0, 0);
  }

  /** Without split covariates there is one control population: every cell
      is in split 0, and every target is listed under key 1. */
  lemma NoSplitCovariates(g: Grid, p: Populations)
    requires g.Valid() && g.combs == [[]] && Layout(g, p)
    ensures forall c :: 0 <= c < |g.rows| ==> p.splitMask[c] == 0
    ensures p.splitIdxToCovariates == map[0 := []]
    ensures p.controlToPerturbation == map[1 := Range(0, |Targets(g)|)]
  {
    assert SplitIndex(g, 1) == SplitIndex(g, 0)[0 := []];
    assert ControlTargets(g, 1) == ControlTargets(g, 0)[1 := Range(Start(g, 0), Start(g, 1))];
  }
}
