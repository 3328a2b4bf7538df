# Perturbation data loading and training callbacks, modelled in Dafny

This project models two parts of the cell-flow perturbation package.

**Data loading** (`src/cfp/data/data.py`) is covered in these modules:
- `Shapes`, `Covariates`, `Embedding`: the `PerturbationData` helpers.
  - Condition representations are normalised to one row and padded.
  - The covariate arguments are validated.
  - The effective combination length is computed.
  - Linked covariate groups are aligned with the primary group.
  - Covariate groups are numbered.
  - The primary group is classified as numeric or categorical.
  - The primary encoder is chosen.
  - The embedding of one target condition is built.
- `Training`, `TargetNumbering`: `TrainingData.load_from_adata`.
  - The request is validated in the source's order.
  - The distinct split combinations become the control populations, keyed `0, 2, 4, …`, because `src_counter` advances twice per split.
  - Within each split, the distinct covariate rows that have cells there become the target populations, numbered `0, 1, 2, …` across all splits.
  - Both per-cell masks are written in place, on Dafny arrays.
  - `control_to_perturbation` is keyed `1, 3, 5, …`.
  - One embedding is stacked per target under every covariate group.
- `Validation`: the enumeration skeleton of `ValidationData.load_from_adata`.
  - It fails fast on an over-long combination, on a missing split column, and on a perturbation covariate whose categories cannot be read (an absent column, or one that is not categorical).
  - Sources are the combinations of split categories that have control cells, numbered consecutively.
  - Inside each source, targets are numbered from 0.
  - Every stored embedding gains a leading axis.

**Training callbacks** (`src/cfp/training/callbacks.py`) are modelled in `Callbacks`:
- `ComputeMetrics` refuses unknown metric names.
- `ComputeMetrics` reports the keys `{dataset}_{metric}` and `train_{metric}`.
- `CallbackRunner` is a class whose fields are the validation data, the computation callbacks and the logging callbacks. Its methods do the following:
  - `_sample_validation_data`, modelled for the `-1` pass-through and the stage check;
  - `on_train_begin`;
  - `on_log_iteration` and `on_train_end`, which merge the computation results left to right (last write wins) and hand the merged map to every logger.

**Abstract parts.** Tables are sequences of rows, and a row maps column names to cells. Arrays are matrices of reals. The following are function parameters:
- pandas' boolean and float conversions;
- the one-hot encoder's `transform`;
- metric values;
- each callback's hooks;
- in the validation loader, the embedding of a population, the categories of a split column, and whether an `obs` column already has the category dtype.

**Behaviours of the source that the model keeps as written:**
- `_get_primary_covar_encoder` returns `None`, a bare encoder or an `(encoder, is_categorical)` pair (data.py:219, 225, 229).
  - `_get_perturbation_covariates` unpacks a pair (data.py:315).
  - So only a numeric primary group without a representation reaches embedding construction; the other two shapes fail to unpack.
- Representations are looked up in `adata.uns` under the group's own name (`rep_dict[group]`, data.py:324, 352), not under the `adata.uns` key that `covariate_reps` names for it.
- Target populations include the covariate rows of control cells, because the target loop does not exclude controls.
- Cell selection uses pandas `==`, under which a missing value (`NaN` or `None`) equals nothing, not even another missing value (data.py:527, 539, 753, 766). `drop_duplicates` still keeps a row with a missing value, but no cell matches it. So such a row is never a target or a validation source, and its cells keep -1 in the masks.
- The `CallbackRunner` guard (callbacks.py:292) never fires. `&` binds tighter than the comparisons, which then chain into `… and 0 != 0`. Construction therefore always succeeds, even with loggers and no computation callbacks.
- `CallbackRunner.on_train_end` samples with the stage `"on_log_iteration"` and calls each callback's `on_log_iteration` hook (callbacks.py:362-370). It behaves exactly like `on_log_iteration`.
- A validation dataset named `train` has its metric overwritten by the training-batch entry (callbacks.py:167, 171).

## Model

| member | source | states |
|---|---|---|
| Shapes.CheckShape | src/cfp/data/data.py:255-276 | Succeeds exactly for a scalar, a vector, a one-row matrix or an `(F, 1)` column, and then yields one rectangular row holding the input's entries in order. Any other 2-D shape fails with the unexpected-shape error, and rank above two with the too-many-dimensions error. |
| Shapes.CheckShapeIdempotent | src/cfp/data/data.py:256-276 | Normalising an already normalised representation returns it unchanged. |
| Shapes.VectorAndRowAgree | src/cfp/data/data.py:259-268 | A length-F vector and the `(1, F)` matrix holding it normalise to the same row, and a `(2, 2)` matrix is refused. |
| Shapes.FlattenColumn | src/cfp/data/data.py:264-265 | Transposing an `(F, 1)` column gives the F entries of the column in order. |
| Shapes.NullRows | src/cfp/data/data.py:293-295 | `k` rows, each `w` copies of the null value. |
| Shapes.PadToMaxLength | src/cfp/data/data.py:288-297 | Keeps the width and has `max(rows, L)` rows. The original rows are an unchanged prefix and every appended row is all null values. An input with at least `L` rows is returned untruncated. |
| Shapes.PadIdempotent | src/cfp/data/data.py:288-297 | Padding twice equals padding once. |
| Shapes.Concatenate | src/cfp/data/data.py:363-368 | Concatenation along axis 0 fails for an empty list and for differing widths; otherwise it gives the rows of every matrix in list order. A failure on a non-empty list is the width mismatch. |
| Shapes.StackSingleRows | src/cfp/data/data.py:363-368 | Stacking one-row matrices gives exactly one row per matrix, in order. |
| Shapes.Tile | src/cfp/data/data.py:380-382 | Tiling a one-row matrix `count` times gives `count` copies of that row (none when `count` is not positive) and keeps the width. |
| Shapes.Scale | src/cfp/data/data.py:334-335 | `arr *= x` keeps the array's rank and its shape. |
| Shapes.ScaleEntries | src/cfp/data/data.py:334-335 | `arr *= x` multiplies every entry by `x` and keeps their row-major order. |
| Shapes.FlattenScale | src/cfp/data/data.py:334-335 | Scaling each row scales the rows laid end to end. |
| Tables.Distinct | src/cfp/data/data.py:507 | `drop_duplicates` keeps exactly the elements of its input, each once, in order of first appearance. |
| Tables.InDistinct | src/cfp/data/data.py:515 | Every row survives `drop_duplicates`. |
| Tables.Project | src/cfp/data/data.py:537 | `row[keys]` holds the value of each listed column, in the listed order. |
| Tables.ProjectAll | src/cfp/data/data.py:515 | `obs[keys]` projects every row, keeping the row order. |
| Tables.HasRepeatMeans | src/cfp/data/data.py:511-514 | A list has a repeat exactly when two positions hold the same element. |
| Dicts.Put | src/cfp/data/data.py:164 | `d[k] = v` keeps the keys distinct: a present key stays in place, a new key is appended. |
| Dicts.PutLookup | src/cfp/data/data.py:164 | After `d[k] = v`, looking up `k` gives `v` and every other key is unchanged. |
| Dicts.Union | src/cfp/data/data.py:486-487 | `d \| e` keeps the keys distinct. |
| Dicts.UnionLookup | src/cfp/data/data.py:486-487 | In `d \| e` a key is present if it is in either side. Its value is the last one `e` gives it, else `d`'s. `d`'s keys keep their places in front. |
| Dicts.LastValueDistinct | src/cfp/data/data.py:486-487 | Without repeated keys, the last assignment to a key is its only one. |
| Covariates.CountTrue | src/cfp/data/data.py:96 | `mask.sum()` is zero exactly when no entry is set, and never exceeds the length. |
| Covariates.VerifyControlData | src/cfp/data/data.py:86-97 | A missing control column raises naming it. Otherwise the check passes exactly when every cell converts to a boolean and at least one is true. It returns the converted column. |
| Covariates.VerifyCovariateData | src/cfp/data/data.py:149-152 | Passes exactly when every named covariate is a column, skipping `None`. A failure names a missing covariate. |
| Covariates.VerifyGroups | src/cfp/data/data.py:107-120 | Passes exactly when every group is non-empty and all its named covariates are columns. |
| Covariates.VerifyPerturbationCovariates | src/cfp/data/data.py:100-120 | No groups raises. Otherwise it passes exactly when every group is non-empty and its named covariates are columns. |
| Covariates.VerifySampleCovariates | src/cfp/data/data.py:123-133 | Passes exactly when every sample covariate is a column; a failure names a missing one. |
| Covariates.VerifySplitCovariates | src/cfp/data/data.py:136-146 | Passes exactly when every split covariate is a column; a failure names a missing one. |
| Covariates.VerifyCovariateReps | src/cfp/data/data.py:177-188 | Passes exactly when every representation key is a covariate group and its `adata.uns` entry exists and is a dictionary. |
| Covariates.MaxGroupLength | src/cfp/data/data.py:195-197 | The longest group: no group is longer, and some group has that length. |
| Covariates.GetMaxCombinationLength | src/cfp/data/data.py:191-206 | Fails (`max` of nothing) without groups. Otherwise the result is at least every group's length. It is the longest group's length when nothing is provided, and `max(provided, longest)` when a value is provided. |
| Covariates.SingletonLengths | src/cfp/data/data.py:170-171 | The set of group lengths has exactly one element exactly when there is a group and all lengths are equal. |
| Covariates.VerifyLinkedCovars | src/cfp/data/data.py:169-174 | Passes exactly when there is a group and all groups have the primary group's length. Otherwise it raises with the list of lengths. |
| Covariates.EmptyLinks | src/cfp/data/data.py:161 | `{k: {} for k in primary}` has exactly the primary covariates as keys, each with an empty dictionary. |
| Covariates.Zip | src/cfp/data/data.py:163-164 | Writing one linked group keeps the set of primary covariates. |
| Covariates.ZipKeys | src/cfp/data/data.py:163-164 | Writing one linked group adds its name to every primary covariate's entry and leaves the other entries' keys alone. |
| Covariates.ZipOther | src/cfp/data/data.py:163-164 | Writing one linked group leaves the values under every other group name unchanged. |
| Covariates.ZipValue | src/cfp/data/data.py:163-164 | The value written for a primary covariate is the linked covariate at its last position (a repeated primary covariate keeps the last write). |
| Covariates.LinkAll | src/cfp/data/data.py:160-164 | The dictionary after the linked groups are written has exactly the primary covariates as keys. |
| Covariates.LinkAllKeys | src/cfp/data/data.py:160-164 | Every primary covariate maps exactly the names of the linked groups written so far. |
| Covariates.LinkAllNewest | src/cfp/data/data.py:162-164 | The group written last leaves, for the primary covariate at position `i`, its own covariate at `i`. |
| Covariates.LinkAllKeep | src/cfp/data/data.py:162-164 | Writing a further group keeps what earlier groups wrote under other names. |
| Covariates.LinkAllValue | src/cfp/data/data.py:160-166 | With distinct group names, linked group `h`'s entry for the primary covariate at position `i` is group `h`'s covariate at `i`. |
| Covariates.LinkGroup | src/cfp/data/data.py:163-164 | The inner zip loop computes exactly `Zip`. |
| Covariates.GetLinkedCovariates | src/cfp/data/data.py:155-166 | Fails exactly when the length check fails, with its error. On success every primary covariate maps every linked group's name to that group's covariate at the same position. |
| Covariates.GetIdxToCovariate | src/cfp/data/data.py:279-286 | Numbers the groups `0 .. n-1` in order. The inverse map sends each group back to its number, and the two maps are mutually inverse. |
| Covariates.CheckCovariateType | src/cfp/data/data.py:232-253 | Succeeds exactly when the group is non-empty, every covariate is a column, and all are numeric or all categorical. It returns whether they are categorical. Any failure is `CovariateTypeError`: the key error of the first covariate that is not a column, else the failing `max` of an empty group, else the mixed-type error naming the last covariate. |
| Covariates.FirstUnreadable | src/cfp/data/data.py:234-243 | The position of the first covariate that is not a readable column: every earlier one is, and the one there (if any) is not. |
| Covariates.GetPrimaryCovarEncoder | src/cfp/data/data.py:209-229 | Succeeds exactly when the primary group can be classified. With a representation it returns `None`. A categorical group gives a bare encoder fitted on the group's values. A numeric group gives an `(encoder, False)` pair fitted on the covariate names. A failure is the classification's `CovariateTypeError` for the primary group. |
| Embedding.LinkedShapeLinks | src/cfp/data/data.py:160-166 | What `_get_linked_covariates` returns names every linked group for every primary covariate. |
| Embedding.CondValue | src/cfp/data/data.py:319 | `condition_data[cov]` gives the row's value, and raises a key error for `None` or an absent column. |
| Embedding.RepLookup | src/cfp/data/data.py:324-328 | `rep_dict[group][name]` succeeds exactly when the `adata.uns` entry exists, is a dictionary and has the name. A missing name raises the given error, which names the value and the group. |
| Embedding.AsArray | src/cfp/data/data.py:358 | `jnp.asarray` of a cell (here and in the sample branch at data.py:377) succeeds exactly for a number or a boolean and gives that scalar (a boolean as 0 or 1). A string, even one that reads as a number, raises a type error naming the cell. |
| Embedding.PrimaryRow | src/cfp/data/data.py:318-338 | A primary covariate contributes one rectangular row. An absent or `None` covariate raises a key error. |
| Embedding.LinkedRow | src/cfp/data/data.py:340-361 | A linked slot contributes one rectangular row; a `None` slot gives the single row `[null_value]`. |
| Embedding.GroupRow | src/cfp/data/data.py:318-361 | Each group gets one rectangular row per primary covariate. |
| Embedding.PrimaryRowScaled | src/cfp/data/data.py:330-337 | A numeric primary covariate without a representation is the one-hot row of its column name multiplied by the row's value. |
| Embedding.MissingRepresentationRaised | src/cfp/data/data.py:323-356 | A primary or linked value absent from its group's representation dictionary raises an error naming the value and the group. |
| Embedding.SampleBase | src/cfp/data/data.py:371-379 | A sample covariate's representation, normalised to one rectangular row. |
| Embedding.SampleRowTiled | src/cfp/data/data.py:379-382 | A sample covariate's array exists exactly when its one-row form does. It is that row repeated `max_combination_length` times. |
| Embedding.SampleRowAsWritten | src/cfp/data/data.py:372-375 | As written, a sample covariate with a representation always fails on `.values`. Without a representation it agrees with the corrected branch. |
| Embedding.SampleRepresentationCounterexample | src/cfp/data/data.py:372-375 | For one concrete cell-type row the corrected branch yields the tiled embedding while the branch as written fails. |
| Embedding.CollectedStep | src/cfp/data/data.py:338-361 | Appending each group's row for the next primary covariate extends the collected lists by one position. |
| Embedding.AppendRows | src/cfp/data/data.py:337-361 | One pass over a primary covariate appends each group's row. It fails exactly when some group's row cannot be built, with the error of the first such group. |
| Embedding.RowsOf | src/cfp/data/data.py:318-361 | A group's rows: one per primary covariate, each the group's row for that covariate. |
| Embedding.CollectedRows | src/cfp/data/data.py:318-361 | Lists collected for every primary covariate are exactly the groups' rows. |
| Embedding.CollectRows | src/cfp/data/data.py:317-361 | The loop over the primary covariates yields every group's rows, or the error of the first row that cannot be built, first by covariate position and then by group order (`FirstRowFailure`). |
| Embedding.FirstRowFailureUnique | src/cfp/data/data.py:337-361 | There is only one first failing row: position and group of the first failure are determined, so the raised error is too. |
| Embedding.PadStack | src/cfp/data/data.py:363-368 | One-row matrices concatenate exactly when there is at least one and they share a width. Padding the result gives their rows then null rows, `max(L, #primary covariates)` in all. |
| Embedding.AssembleGroups | src/cfp/data/data.py:363-368 | The group comprehension succeeds exactly when every group's list concatenates. It stores each group's padded concatenation under its name, in group order. A failure is the concatenation error of one of the groups. |
| Embedding.AssembledGroups | src/cfp/data/data.py:363-368 | Assembling succeeds exactly when every list is non-empty and of one width. Each group name then finds its rows stacked and padded. |
| Embedding.SampleEmbeddings | src/cfp/data/data.py:370-382 | The sample loop succeeds exactly when every sample row exists, and stores each sample covariate's tiled row under its name. A failure is the error of the first sample covariate whose row does not exist (`FirstSampleFailure`). |
| Embedding.FirstSampleFailureUnique | src/cfp/data/data.py:370-382 | The first failing sample covariate is determined. |
| Embedding.MergedEntries | src/cfp/data/data.py:384 | `perturb_covar_emb \| sample_covar_emb` holds the group names in order, then the new sample names. A sample's entry overrides a group of the same name. |
| Embedding.GroupsOkOfLists | src/cfp/data/data.py:363-368 | The groups are consistent exactly when every collected list is non-empty and of one width. |
| Embedding.GroupsOfLists | src/cfp/data/data.py:363-368 | Assembling the collected rows succeeds exactly when the groups are consistent, and keeps the group names in order. |
| Embedding.GroupEntriesOfLists | src/cfp/data/data.py:363-368 | Each group's name finds its rows stacked and padded. |
| Embedding.GroupEmbeddings | src/cfp/data/data.py:317-368 | The group half succeeds exactly when the groups are consistent. Each group then maps to its rows stacked and padded to the slot count. A failure is the first failing row's error; with every row built, it is the empty-concatenation error when there are no primary covariates, else the width mismatch (`GroupsRaise`). |
| Embedding.GetPerturbationCovariates | src/cfp/data/data.py:300-384 | A non-pair encoder fails to unpack. With a pair, it succeeds exactly when every group row and sample row exists and each group's rows share a width. The keys are the group names then the sample covariates. Each group maps to its padded rows and each sample covariate to its tiled row. A failure is the error `Raises` names: unpacking, then the group half's error, then the first failing sample row's. |
| Embedding.GroupsRaiseUnique | src/cfp/data/data.py:317-368 | The error the group half raises is determined by the inputs. |
| Embedding.RaisesUnique | src/cfp/data/data.py:300-384 | `Raises` determines one error: the raised error is a function of the inputs. |
| Training.SampleGroups | src/cfp/data/data.py:485 | One single-covariate group per distinct sample covariate. |
| Training.CovariateGroups | src/cfp/data/data.py:486 | `covariate_groups` has distinct keys: the perturbation groups and the sample covariates. |
| Training.CovariateReps | src/cfp/data/data.py:487 | The merged representation keys are distinct. |
| Training.ChecksPass | src/cfp/data/data.py:470-491 | The checks pass exactly when each of them passes; a passing request has a perturbation group. |
| Training.Named | src/cfp/data/data.py:514 | The named covariates, `None` dropped. |
| Training.FlatNames | src/cfp/data/data.py:511 | Every named covariate of every group. |
| Training.CovariateKeys | src/cfp/data/data.py:511-514 | `perturb_covar_keys` holds exactly the named perturbation covariates and the sample covariates. |
| Training.Grid.SplitOf | src/cfp/data/data.py:524-528 | Every cell's split row is one of the distinct split combinations `drop_duplicates` keeps, including a row with a missing value. |
| Training.Grid.CandOf | src/cfp/data/data.py:536-541 | Every cell's covariate row is one of the distinct candidates `drop_duplicates` keeps, including a row with a missing value. |
| Training.SplitCombinations | src/cfp/data/data.py:506-509 | `split_cov_combs` is free of repeats and holds every cell's split row. It is one empty combination when there are no split covariates. |
| Training.GridOf | src/cfp/data/data.py:506-515 | The splits are the distinct split rows and the candidates are the distinct covariate rows, in first-appearance order. |
| Training.SplitTargets | src/cfp/data/data.py:535-544 | At most one target per candidate walked, each as long as the covariate keys. |
| Training.TargetsBefore | src/cfp/data/data.py:524-566 | Targets of earlier splits carry an earlier split number. |
| Training.Range | src/cfp/data/data.py:546 | `conditional_distributions` has `b - a` numbers (or none). |
| Training.CondRow | src/cfp/data/data.py:537 | `tgt_cond` has exactly the covariate keys, each with the candidate's value; the loader reaches it only with distinct keys, since a repeated key raises first. |
| Training.InputsFor | src/cfp/data/data.py:550-560 | The embedding of a target reads its own row, the perturbation groups and the sample covariates. Its inputs are valid once the setup links every group. |
| Training.AsMap | src/cfp/data/data.py:562-563 | `embedding.items()` as a map with the same keys and values. |
| Training.StackAppend | src/cfp/data/data.py:562-563 | Appending one array per key stacks one more column. |
| Training.StackedColumns | src/cfp/data/data.py:570-571 | Column `t` of the stacked condition data is target `t`'s embedding. |
| Training.AppendEmbedding | src/cfp/data/data.py:562-563 | Appends each returned array to the list under its key and leaves the other keys alone. |
| Training.TargetsSoFarStep | src/cfp/data/data.py:543-546 | A candidate becomes the next target exactly when pandas matches it to some cell of the split. |
| Training.IndexAppend | src/cfp/data/data.py:548 | Recording the next target's values keeps the number-to-values map exact. |
| Training.SkipCandidate | src/cfp/data/data.py:543-544 | A candidate without cells in the split changes nothing. |
| Training.SplitHits | src/cfp/data/data.py:525-528 | `split_cov_mask` selects exactly the cells whose split values pandas `==` matches to the combination: equal at every column, and a missing value matches nothing. |
| Training.TargetHits | src/cfp/data/data.py:538-541 | `mask` selects exactly the cells pandas matches to both the split combination and the candidate; a missing value on either side matches nothing. |
| Training.HitsOccupied | src/cfp/data/data.py:543 | `mask.sum() == 0` exactly when pandas matches no cell of the split to the candidate. |
| Training.HitsExactly | src/cfp/data/data.py:525-541 | A cell is in the target mask exactly when it has no missing split or covariate value and its split and candidate are those. It is in the split mask exactly when it has no missing split value and its split is that one. |
| Training.TakeCandidate | src/cfp/data/data.py:546-565 | A candidate with cells in the split becomes the next target: its cells get the next number, the number maps to its values and its embedding is appended. |
| Training.MaskTarget | src/cfp/data/data.py:547 | `perturbation_covariates_mask[mask] = tgt_counter` extends the masked cells by the new target's cells. |
| Training.EmbeddedAppend | src/cfp/data/data.py:550-563 | Appending a target's embedding keeps every column the embedding of its target. |
| Training.SplitBegins | src/cfp/data/data.py:533 | Before its first candidate a split has numbered no target: the count is the split's first number. |
| Training.NextSplit | src/cfp/data/data.py:536-568 | A split walked to its last candidate is the next split not yet begun. |
| Training.TargetsSoFarPrefix | src/cfp/data/data.py:535-566 | The targets numbered so far are a prefix of all targets. |
| Training.EmbeddedResult | src/cfp/data/data.py:550-560 | The dictionary `_get_perturbation_covariates` returns is the embedding of its target. |
| Training.NumberSplit | src/cfp/data/data.py:529-568 | Numbering a split adds key `2j` (its combination) to `split_idx_to_covariates` and key `2j+1` (its target range) to `control_to_perturbation`. |
| Training.SplitIndexContents | src/cfp/data/data.py:529-531 | The keys of `split_idx_to_covariates` are the even numbers below `2j`, and key `2i` holds split combination `i`. |
| Training.ControlTargetsContents | src/cfp/data/data.py:567-568 | The keys of `control_to_perturbation` are the odd numbers below `2j`, and key `2i+1` lists the numbers of split `i`'s targets. |
| Training.SplitMaskStep | src/cfp/data/data.py:529 | `split_covariates_mask[split_cov_mask] = src_counter` marks the split's cells with `2j`. |
| Training.RangeAppend | src/cfp/data/data.py:546 | Appending `tgt_counter` extends `conditional_distributions` by that number. |
| Training.WriteMask | src/cfp/data/data.py:547 | `mask[hits] = value` sets exactly the selected cells and keeps the rest. |
| Training.EmbedTarget | src/cfp/data/data.py:550-560 | A target's embedding fails exactly when it cannot be built, with the error `_get_perturbation_covariates` raises for it (`Raises`). On success it has one entry per covariate group and is the target's embedding. |
| Training.FailureAt | src/cfp/data/data.py:550-560 | A failing embedding reached after every earlier target embedded is the first failing target of the grid, and its error is that target's raised error (`FirstFailure`). |
| Training.ColumnAppended | src/cfp/data/data.py:562-563 | Appending the entries one by one appends the column `AsMap(emb)` under every key. |
| Training.NumberTarget | src/cfp/data/data.py:546-548 | The candidate's cells get the next number in the mask, and the number maps to its values. |
| Training.TakeTarget | src/cfp/data/data.py:545-566 | A candidate with cells becomes the next target with its embedding; an embedding failure is the first failing target of the grid, with its error. |
| Training.VisitCandidate | src/cfp/data/data.py:536-566 | One candidate is skipped or numbered. The running range of target numbers grows with it; an error is the first failing target's. |
| Training.FillBegins | src/cfp/data/data.py:533 | At a split's start its range of target numbers is empty and starts at the count so far. |
| Training.FillSplit | src/cfp/data/data.py:533-566 | Walking every candidate of a split numbers exactly its targets and returns their range; an error is the first failing target's. |
| Training.MarkSplit | src/cfp/data/data.py:529 | Marks the split's cells with `2j` in the split mask. |
| Training.WalkSplit | src/cfp/data/data.py:524-568 | One split advances `src_counter` by two, records key `2j` and key `2j+1`, and numbers the split's targets; an error is the first failing target's. |
| Training.EnumeratedNoFailure | src/cfp/data/data.py:550-566 | Completed populations embed every target, so no target fails. |
| Training.EnumerationDone | src/cfp/data/data.py:524-571 | After every split the masks, maps and condition data are the complete layout: cells with a missing split or covariate value keep -1. |
| Training.WalkBegins | src/cfp/data/data.py:517-522 | Before the first split both maps are empty and nothing is embedded. |
| Training.WalkSplits | src/cfp/data/data.py:524-568 | The split loop yields the complete layout, in which cells with a missing split or covariate value keep -1, or an error exactly when some target cannot be embedded; that error is the first failing target's (`FirstFailure`). |
| Training.FirstFailureUnique | src/cfp/data/data.py:524-568 | The first failing target and its raised error are determined by the request. |
| Training.Unwalked | src/cfp/data/data.py:517-522 | Fresh `-1` masks and empty per-group lists are the state before the first split. |
| Training.NewMask | src/cfp/data/data.py:518 | `np.full(n, -1)`: a fresh array of `n` cells, all `-1`. |
| Training.Enumerate | src/cfp/data/data.py:503-571 | The enumeration yields the complete layout with one condition-data entry per group, or fails exactly when some target cannot be embedded, with the first failing target's error. A cell with a missing split value keeps -1 in both masks, and one with a missing covariate value keeps -1 in the perturbation mask. |
| Training.Prepare | src/cfp/data/data.py:470-501 | The first failing check is the error raised. Once the checks pass, loading fails only when the primary group cannot be classified, and then with that classification's `CovariateTypeError`. The computed setup is the request's. |
| Training.CellDataSource | src/cfp/data/data.py:65-83 | `"X"` reads `adata.X` (even when `adata.obsm` has an `"X"` key). Another name must be an `adata.obsm` key, else it raises. A dictionary is read through its first entry. |
| Training.GridOfRequest | src/cfp/data/data.py:506-515 | The grid walks the request's rows over `perturb_covar_keys`. |
| Training.CompareConditions | src/cfp/data/data.py:537-541 | The first comparison raises exactly when `obs` has a row and some covariate key occurs twice in `perturb_covar_keys`. |
| Training.LoadPrepared | src/cfp/data/data.py:503-583 | After setup, loading raises on the first comparison when a covariate key repeats and `obs` has a row; then, if a target cannot be embedded, it fails with the first failing target's error; else it fails exactly when the cell data source is invalid. A result is the loaded data of the request. |
| Training.LoadFromAdata | src/cfp/data/data.py:438-583 | Errors come in the source's order, each identified: the first failing check; then the classification's `CovariateTypeError`; then the comparison error of a repeated covariate key; then the first failing target's error; then an invalid cell data source. Any result holds the full layout, the slot count, the null value and every target's embedding. |
| TargetNumbering.SplitTargetsIn | src/cfp/data/data.py:536-546 | A split's targets are candidates walked so far that have cells in the split. |
| TargetNumbering.SplitTargetsOrdered | src/cfp/data/data.py:536-546 | A split's targets come in candidate (first-appearance) order. |
| TargetNumbering.SplitTargetsComplete | src/cfp/data/data.py:543-546 | Every walked candidate that pandas matches to some cell of the split is one of its targets. |
| TargetNumbering.TargetsBeforeAt | src/cfp/data/data.py:524-566 | Target `t` lies in its split's number range, at its position among that split's targets. |
| TargetNumbering.StartMonotone | src/cfp/data/data.py:546-565 | Target numbers grow with the split. |
| TargetNumbering.TargetAt | src/cfp/data/data.py:546-565 | Number `Start(j) + i` is the `i`-th target of split `j`. |
| TargetNumbering.TargetOccupied | src/cfp/data/data.py:543-548 | Every target number has cells, and its covariate values are a candidate. |
| TargetNumbering.InSplitRange | src/cfp/data/data.py:546-567 | Split `i`'s number range holds target `t` exactly when `t` is a target of split `i`. |
| TargetNumbering.TargetsComplete | src/cfp/data/data.py:535-546 | Every split and covariate combination that pandas matches to some cell is numbered. |
| TargetNumbering.TargetPlace | src/cfp/data/data.py:524-566 | Target `t` is a candidate of its split, numbered inside that split's range at its position among the split's targets. |
| TargetNumbering.TargetsOrdered | src/cfp/data/data.py:524-566 | Numbers grow split by split and, within a split, in first-appearance order of covariate rows. |
| TargetNumbering.TargetsDistinct | src/cfp/data/data.py:546-548 | No two numbers name the same target (no gaps, no repeats). |
| TargetNumbering.InRange | src/cfp/data/data.py:567 | A number is in `a, …, b-1` exactly when it lies between. |
| TargetNumbering.RangeAt | src/cfp/data/data.py:567 | Position `i` of `a, …, b-1` holds `a + i`. |
| TargetNumbering.RangeAscending | src/cfp/data/data.py:567 | Each `conditional_distributions` list is ascending. |
| TargetNumbering.ControlTargetsPartition | src/cfp/data/data.py:546-567 | Every target number appears under exactly one key of `control_to_perturbation`, `2j+1` for its split `j`, and every list is ascending. |
| TargetNumbering.PerturbationMaskSame | src/cfp/data/data.py:547-548 | A cell with a missing split or covariate value keeps -1. Every other cell has a target number ≥ 0 whose recorded values are the cell's covariate values, and two such cells share a number exactly when they share split and covariate values. |
| TargetNumbering.SplitMaskSame | src/cfp/data/data.py:529-530 | A cell with a missing split value keeps -1. Every other cell's split-mask value is `2j` for its split `j` and names its split combination, and two such cells share it exactly when their split values agree. |
| TargetNumbering.TargetsHaveNoMissing | src/cfp/data/data.py:536-548 | No target, and no split combination of a target, holds a missing value. |
| TargetNumbering.MissingDoseSkipped | src/cfp/data/data.py:536-544 | With no split covariates and one cell whose only covariate is missing, that cell keeps -1 and there is no target. |
| TargetNumbering.NoSplitCovariates | src/cfp/data/data.py:506-509 | Without split covariates every cell has split value 0, `split_idx_to_covariates` is `{0: []}` and key 1 lists every target. |
| Validation.ExpandDims | src/cfp/data/data.py:795 | `jnp.expand_dims(emb, 0)` adds a leading axis of size one and keeps the entries. |
| Validation.LongestGroup | src/cfp/data/data.py:685-694 | The longest group: no group is longer, and some group has that length unless it is 0. |
| Validation.ObservedLength | src/cfp/data/data.py:685-698 | At least every `obs` and `uns` group's length, and equal to one of them (or 0). |
| Validation.SplitColumns | src/cfp/data/data.py:671-674 | Never empty: the helper column stands in for absent split covariates. |
| Validation.SplitCategories | src/cfp/data/data.py:717-720 | One list of categories per split column. |
| Validation.ExtendMembers | src/cfp/data/data.py:745 | A combination extends the rest by one first value exactly when its head is a first value and its tail a rest. |
| Validation.ProductMembers | src/cfp/data/data.py:745 | `itertools.product` yields exactly the sequences taking their `i`-th value from list `i`, as many as the product of the lengths. |
| Validation.SourceMask | src/cfp/data/data.py:749-755 | A cell is selected exactly when it is a control cell whose split values pandas `==` matches to the combination; a combination with a missing category selects no cell. |
| Validation.WhereStep | src/cfp/data/data.py:759 | The cells a mask selects are its prefix's cells followed by the last cell when that is selected: membership, increasing order and count carry over. |
| Validation.Where | src/cfp/data/data.py:759 | `adata[mask]` selects exactly the masked cells, in increasing order, as many as the mask's count. |
| Validation.Flatten | src/cfp/data/data.py:721-725 | Every covariate of every group. |
| Validation.TargetMask | src/cfp/data/data.py:765-771 | A cell is selected exactly when it is perturbed, in the source, and pandas matches its covariate values to the target; a row with a missing value selects no cell. |
| Validation.KeptMembers | src/cfp/data/data.py:756-757 | The survivors of the `continue` are exactly the candidates that pass. |
| Validation.NumberedByMeans | src/cfp/data/data.py:759-799 | The numbers in use are exactly `0 .. n-1`, and entry `t` belongs to the `t`-th kept key. |
| Validation.NumberKept | src/cfp/data/data.py:772-798 | A kept candidate takes the next number; a skipped one changes nothing. |
| Validation.CheckSplitColumns | src/cfp/data/data.py:704-707 | Passes exactly when every split column is present; a failure names the first missing one. |
| Validation.NumberTarget | src/cfp/data/data.py:764-798 | One observed row is numbered next in the source when it has perturbed cells there. |
| Validation.CollectTargets | src/cfp/data/data.py:763-798 | Target numbering restarts at 0 per source and holds exactly the observed rows pandas matches to perturbed cells in it, with their cells and embeddings. |
| Validation.NumberSource | src/cfp/data/data.py:750-799 | One split combination becomes the next source, with its targets, exactly when it has control cells. |
| Validation.CollectSources | src/cfp/data/data.py:744-799 | The sources are the split combinations with control cells, numbered consecutively, each with its control cells and targets. |
| Validation.CheckCategories | src/cfp/data/data.py:721-730 | Passes exactly when every `obs` and then `uns` perturbation covariate has readable categories; a failure is the error of the first one that does not. |
| Validation.CategoriesError | src/cfp/data/data.py:721-730 | Reading `.cat.categories` raises `KeyError` exactly for an absent column, and `AttributeError` exactly for a present column that is not categorical. |
| Validation.LoadFromAdata | src/cfp/data/data.py:685-808 | An over-long combination raises before any assembly. Then the first missing split column raises, then the first perturbation covariate whose categories cannot be read (absent, or not categorical and not a split column). It succeeds exactly when none of these raises. The result holds the sources and targets, and condition data exactly when there are perturbation covariates. |
| Validation.SomeSet | src/cfp/data/data.py:756 | `mask.sum() == 0` exactly when no entry is set. |
| Validation.KeptSourcesMembers | src/cfp/data/data.py:745-757 | The sources are exactly the category combinations pandas matches to at least one control cell. |
| Validation.KeptTargetsMembers | src/cfp/data/data.py:746-773 | A source's targets are exactly the observed covariate rows without a missing value that pandas matches to its perturbed cells. |
| Validation.KeptHaveNoMissing | src/cfp/data/data.py:749-773 | No kept source or target holds a missing value. |
| Validation.NoSplitsOneSource | src/cfp/data/data.py:671-674 | Without split covariates there is one source exactly when there is a control cell. |
| Validation.SourceCellsFilled | src/cfp/data/data.py:759 | Entry `i` of the source dictionary holds exactly source `i`'s control cells. |
| Validation.TargetCellsFilled | src/cfp/data/data.py:775-777 | Entry `i` numbers source `i`'s targets, and target `t` holds exactly the perturbed cells pandas matches to it. |
| Validation.SourceCellsAssembled | src/cfp/data/data.py:750-759 | In the loaded data, source `i` holds exactly the control cells pandas matches to the `i`-th kept combination. |
| Validation.TargetCellsAssembled | src/cfp/data/data.py:764-777 | In the loaded data, source `i` has one entry per target, and each holds exactly the perturbed cells of the source that pandas matches to the target's values. |
| Callbacks.NewComputeMetrics | src/cfp/training/callbacks.py:123-138 | Succeeds exactly when every metric is one of `r_squared`, `mmd`, `sinkhorn_div`, `e_distance`; otherwise it raises naming the first unsupported one. Median aggregation is chosen exactly for `"median"`. |
| Callbacks.LogIteration | src/cfp/training/callbacks.py:156-173 | The nested loops compute exactly the reported map. |
| Callbacks.SupportedTails | src/cfp/training/callbacks.py:100-105 | Distinct supported metrics differ in their last two characters. |
| Callbacks.KeyInjective | src/cfp/training/callbacks.py:167-171 | Reported names of supported metrics never collide across metrics or datasets. |
| Callbacks.DatasetEntriesMeans | src/cfp/training/callbacks.py:158-167 | The dataset entries are exactly `{name}_{metric}` for every dataset, each with that dataset's value. |
| Callbacks.ReportedKeys | src/cfp/training/callbacks.py:156-173 | The reported keys are exactly `{name}_{metric}` for every dataset and metric and `train_{metric}` for every metric. |
| Callbacks.ReportedTrainValue | src/cfp/training/callbacks.py:168-171 | `train_{metric}` holds the training-batch value, even when a dataset is named `train`. |
| Callbacks.ReportedDatasetValue | src/cfp/training/callbacks.py:158-171 | `{name}_{metric}` holds the dataset's value for every dataset not named `train`. |
| Callbacks.FilterMembers | src/cfp/training/callbacks.py:284-289 | Filtering keeps exactly the callbacks of the wanted kind. |
| Callbacks.FilterConcat | src/cfp/training/callbacks.py:284-289 | Filtering distributes over concatenation, so it keeps the input order. |
| Callbacks.FilterCallbacks | src/cfp/training/callbacks.py:284-289 | The list comprehension computes exactly the filter. |
| Callbacks.GuardNeverFires | src/cfp/training/callbacks.py:292-295 | The guard as Python evaluates it is false for all list lengths. |
| Callbacks.Sampled | src/cfp/training/callbacks.py:307-310 | The sampled dictionary has distinct keys. |
| Callbacks.SampledEntries | src/cfp/training/callbacks.py:307-310 | Every dataset keeps its name and place. A dataset whose count is `-1` is passed through unchanged. |
| Callbacks.MergedLastWins | src/cfp/training/callbacks.py:342-344 | A merged key comes from some result, and its value from the last result that has it. |
| Callbacks.Results | src/cfp/training/callbacks.py:342-343 | One result per computation callback, in order, each computed on the sampled data. |
| Callbacks.SampleAll | src/cfp/training/callbacks.py:307-318 | The loop yields `Sampled` of every dataset, with as many entries as datasets, each under its dataset's name in its place. |
| Callbacks.CallbackRunner.constructor | src/cfp/training/callbacks.py:276-295 | Keeps the validation data, and the computation and logging callbacks in input order. Callbacks of neither kind are dropped, and construction never raises. It establishes `Valid()`: distinct dataset names, and each list holds only its kind. |
| Callbacks.CallbackRunner.SampleValidationData | src/cfp/training/callbacks.py:297-310 | Each known stage picks its count and samples every dataset, keeping each dataset's name and place; an unknown stage raises. |
| Callbacks.CallbackRunner.OnTrainBegin | src/cfp/training/callbacks.py:320-326 | The begin hooks run for every computation callback, then every logging callback, in order. |
| Callbacks.CallbackRunner.RunCallbacks | src/cfp/training/callbacks.py:342-349 | Returns the left-to-right merge of the computation results and hands that same map to every logger, in order. |
| Callbacks.CallbackRunner.OnLogIteration | src/cfp/training/callbacks.py:328-349 | Samples with the `on_log_iteration` counts, then returns the merged results and delivers them to every logger. |
| Callbacks.CallbackRunner.OnTrainEnd | src/cfp/training/callbacks.py:351-372 | Identical to `on_log_iteration`, because it samples with the `on_log_iteration` counts as well. |

## Left out

- `_get_cell_data` (data.py:65-83) is modelled only as the choice of source: sparse-to-dense conversion and `jnp` materialisation are left out, and `getattr(adata, attr)[key]` is returned as the pair it names.
- pandas coercions are modelled without their in-place writes to `adata.obs` (data.py:91, 236-239, 672-674, 708). The boolean and float readings of a cell are parameters. Conversion to `category` is taken always to succeed.
  - Because `astype(float)` rewrites the primary columns (data.py:236) before `perturb_covar_df` is built (data.py:515), the source sees the strings `"1"` and `"1.0"` as one target. The model keeps the original cells, so they are two.
- `_check_covariate_type`: the branch where both conversions fail refers to an undefined `e` (data.py:244). The model treats every column that exists and is not numeric as categorical, so that branch never arises.
- Python's run-time type checks are left out: the "should be a dictionary", "should be a tuple or list" and "Key should be a string" errors in data.py:101-115, 124-132 and 137-145. Dafny's types already rule those inputs out. `_to_list` is the identity on the typed inputs.
- The `OneHotEncoder` is left out. It is known only by the categories it is fitted on, and its `transform` is a parameter.
- Floating point: arrays hold Dafny reals, so rounding in `arr *= value` is not modelled.
- Training.CondRow: for a repeated covariate key the model takes the first position's value, whereas pandas would give a Series. The loader never reaches this, because `Training.CompareConditions` raises first.
- Training.CompareConditions: the error records the number of covariate keys rather than pandas' message, whose second length counts every column of a repeated name once per occurrence.
- Embedding.SampleBase: uses the corrected lookup of the finding below, and so does everything built on it. As written, data.py:374 raises `AttributeError` for every sample covariate with a representation; `Embedding.SampleRowAsWritten` models that.
- Embedding.SampleEmbeddings: succeeds where the source raises `AttributeError`, for a sample covariate with a representation (data.py:372-375), because it uses the corrected lookup.
- Embedding.GetPerturbationCovariates: succeeds where the source raises `AttributeError`, for a sample covariate with a representation (data.py:372-375), because it uses the corrected lookup.
- Training.EmbedTarget: succeeds where the source raises `AttributeError`, for a sample covariate with a representation (data.py:372-375), because it uses the corrected lookup.
- Training.LoadPrepared: succeeds where the source raises `AttributeError`, for a sample covariate with a representation (data.py:372-375), because it uses the corrected lookup.
- Embedding.AsArray: a missing cell is refused with a type error, whereas `jnp.asarray(NaN)` gives a NaN scalar. The model's arrays hold reals, which have no NaN.
- Training.TakeTarget: the model computes the embedding before writing the target's mask and label, whereas the source writes them first (data.py:546-560). The difference is unobservable, because an embedding failure aborts the whole load and the masks are lost.
- Training.LoadFromAdata: succeeds where the source raises `AttributeError`, for a sample covariate with a representation (data.py:372-375), because it uses the corrected lookup.
- Training.LoadFromAdata: the condition data is returned as per-group lists of matrices, and `jnp.array(emb)` stacking (data.py:570-571) is left out. That stacking raises `ValueError` when one key's per-target arrays differ in shape (for instance, `adata.uns` representations of different widths for the values of a linked covariate); the model returns `Ok` there, so its list of errors is not complete. `warnings.warn` (data.py:201) and the `tqdm` progress bar are left out.
- Validation.LoadFromAdata models only the enumeration skeleton (data.py:685-799), because several calls around it cannot run as written:
  - data.py:679 and 683 call validators that `data.py` does not define;
  - data.py:710 calls `_get_idx_to_covariate` with two arguments;
  - data.py:759 calls `_get_sample_data`, which is not defined, with an undefined `cell_data`;
  - data.py:780 passes keyword arguments that `_get_perturbation_covariates` does not take;
  - data.py:761 writes into `condition_data` while it may be `None`.

  The model also leaves out the control-data check at data.py:677 and the index maps at data.py:710-715.
  - The cells of a population stand in for `_get_sample_data`.
  - The embedding of a population is a parameter.
  - Condition data is written only when there are perturbation covariates.
  - The per-key renaming through `pert_embedding_idx_to_covariates` (data.py:793) is folded into that parameter.
- Validation.SplitCategories: each split column's `cat.categories` is a parameter.
- The random branch of `_sample_validation_data` (callbacks.py:311-317) is recorded only as the count it would draw. It relies on the generator's state, on attributes not defined in this code, and on indexing the dataset's name string. The `rng` field and the seed's effect are not modelled.
- Callbacks.CallbackRunner.RunCallbacks: `dict_to_log` (callbacks.py:339-349) is a map, so the insertion order of its keys, which the loggers could observe, is not modelled. Which value wins for a repeated key is.
- Callbacks.CallbackRunner.OnLogIteration: the same as RunCallbacks; the order of the keys in the dictionary handed to the loggers is not modelled.
- Callbacks.LogIteration: metric values and their aggregation (`np.mean`/`np.median` over `jax.tree` results) are opaque parameters. The keys and the order of writes are modelled, but the insertion order of Python's result dictionary is not: the result is a map.
- `ComputeMetrics.on_train_end` (callbacks.py:175-188) calls `on_log_iteration` with a missing argument, and nothing in the modelled runner calls it.
- `WandbLogger` (callbacks.py:191-259) is left out: it is network I/O. Logging hooks are modelled as the list of deliveries they receive.
- `__repr__`, `_format_params` and the `n_*` properties of `TrainingData` are left out: they only format output.

## Findings

| source | as written | input that shows it | evidently intended | confidence | as-written member | corrected member |
|---|---|---|---|---|---|---|
| src/cfp/data/data.py:372-375 | A sample covariate with a representation is looked up as `rep_dict[s][condition_data[s].values[0]]`. `condition_data[s]` is the row's single value, which has no `.values`, so the lookup raises `AttributeError` whenever the covariate has a representation. | Sample covariate `cell_type` with representation key `cell_type`, `adata.uns["cell_type"] = {"A": [1.0, 2.0]}`, and a target row whose `cell_type` is `"A"`. | Look up the row's value directly, `rep_dict[s][condition_data[s]]`: the embedding is `[1.0, 2.0]` tiled `max_combination_length` times. | not executed | Embedding.SampleRowAsWritten, Embedding.SampleRepresentationCounterexample | Embedding.SampleRowTiled |
