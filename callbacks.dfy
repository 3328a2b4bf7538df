/** Callback orchestration of the trainer (callbacks.py): the metric
    callback's configuration check and the keys it reports, and the runner
    that sorts callbacks into computation and logging lists, passes the
    validation data through, merges the computed metrics and hands the
    merged map to every logger. Metric functions, aggregation and the
    callbacks' own hooks are abstract function parameters. */
module Callbacks {
  import opened Wrappers
  import opened Tables
  import opened Dicts

  // ------------------------------------------------------------ metrics

  /** The metric names that have an implementation (callbacks.py:100-105). */
  const Supported: seq<string> := ["r_squared", "mmd", "sinkhorn_div", "e_distance"]

  /** `np.median` for the name "median", `np.mean` for anything else. */
  datatype Aggregation = Mean | Median

  /** A configured metric callback. */
  datatype ComputeMetrics = ComputeMetrics(metrics: seq<string>, aggregation: Aggregation)

  function AggregationOf(name: string): Aggregation {
    if name == "median" then Median else Mean
  }

  /** `ComputeMetrics(metrics, metric_aggregation)`: fails on the first
      metric without an implementation. */
  method NewComputeMetrics(metrics: seq<string>, aggregation: string)
    returns (r: Result<ComputeMetrics, Error>)
    ensures r.Ok? <==> forall m :: m in metrics ==> m in Supported
    ensures r.Ok? ==> r.value.metrics == metrics
    ensures r.Ok? ==> (r.value.aggregation == Median <==> aggregation == "median")
    ensures r.Err? ==> exists i :: 0 <= i < |metrics| && metrics[i] !in Supported
                                   && r.error == UnsupportedMetric(metrics[i])
                                   && forall j :: 0 <= j < i ==> metrics[j] in Supported
  {
    var i := 0;
    while i < |metrics|
      invariant 0 <= i <= |metrics|
      invariant forall j :: 0 <= j < i ==> metrics[j] in Supported
    {
      if metrics[i] !in Supported {
        return Err(UnsupportedMetric(metrics[i]));
      }
      i := i + 1;
    }
    return Ok(ComputeMetrics(metrics, AggregationOf(aggregation)));
  }

  /** The reported name `f"{name}_{metric}"`. */
  function Key(name: string, metric: string): string {
    name + "_" + metric
  }

  /** The entries of one metric for the first `n` validation datasets. */
  function DatasetEntries<V>(names: seq<string>, metric: string, values: (string, string) -> V, n: nat): map<string, V>
    requires n <= |names|
  {
    if n == 0 then map[]
    else DatasetEntries(names, metric, values, n - 1)[Key(names[n - 1], metric) := values(names[n - 1], metric)]
  }

  /** The map after the first `n` metrics: each writes its dataset entries,
      then its training-batch entry `train_{metric}`. */
  function Reported<V>(names: seq<string>, metrics: seq<string>, values: (string, string) -> V,
                       train: string -> V, n: nat): map<string, V>
    requires n <= |metrics|
  {
    if n == 0 then map[]
    else
      var metric := metrics[n - 1];
      (Reported(names, metrics, values, train, n - 1) + DatasetEntries(names, metric, values, |names|))
        [Key("train", metric) := train(metric)]
  }

  /** `ComputeMetrics.on_log_iteration`: `values(name, metric)` stands for
      the aggregated metric on validation dataset `name` and `train(metric)`
      for the aggregated metric on the training batch. */
  method LogIteration<V>(cm: ComputeMetrics, names: seq<string>,
                         values: (Aggregation, string, string) -> V, train: (Aggregation, string) -> V)
    returns (metrics: map<string, V>)
    ensures metrics == Reported(names, cm.metrics, (k, m) => values(cm.aggregation, k, m),
                                m => train(cm.aggregation, m), |cm.metrics|)
  {
    var dataset := (k, m) => values(cm.aggregation, k, m);
    var batch := m => train(cm.aggregation, m);
    metrics := map[];
    var i := 0;
    while i < |cm.metrics|
      invariant 0 <= i <= |cm.metrics|
      invariant metrics == Reported(names, cm.metrics, dataset, batch, i)
    {
      var metric := cm.metrics[i];
      var before := metrics;
      var j := 0;
      while j < |names|
        invariant 0 <= j <= |names|
        invariant metrics == before + DatasetEntries(names, metric, dataset, j)
      {
        metrics := metrics[Key(names[j], metric) := values(cm.aggregation, names[j], metric)];
        j := j + 1;
      }
      metrics := metrics[Key("train", metric) := train(cm.aggregation, metric)];
      i := i + 1;
    }
  }

  /** Distinct supported metrics differ in their last two characters. */
  lemma SupportedTails(m1: string, m2: string)
    requires m1 in Supported && m2 in Supported
    ensures |m1| >= 2 && |m2| >= 2
    ensures m1[|m1| - 1] == m2[|m2| - 1] && m1[|m1| - 2] == m2[|m2| - 2] ==> m1 == m2
  {
  }

  /** Reported names of supported metrics never collide: the metric is
      recovered from the end of the name and the dataset from the rest. */
  lemma {:induction false} KeyInjective(a: string, m1: string, b: string, m2: string)
    requires m1 in Supported && m2 in Supported
    requires Key(a, m1) == Key(b, m2)
    ensures a == b && m1 == m2
  {
    var s := Key(a, m1);
    SupportedTails(m1, m2);
    assert s[|s| - 1] == m1[|m1| - 1] && s[|s| - 2] == m1[|m1| - 2];
    assert s[|s| - 1] == m2[|m2| - 1] && s[|s| - 2] == m2[|m2| - 2];
    assert m1 == m2;
    assert s[..|a|] == a;
    assert s[..|b|] == b;
  }

  /** The dataset entries name every dataset once, with that dataset's
      value. */
  lemma {:induction false} DatasetEntriesMeans<V>(names: seq<string>, metric: string,
                                                 values: (string, string) -> V, n: nat, k: string)
    requires n <= |names|
    ensures k in DatasetEntries(names, metric, values, n) <==> exists x :: x in names[..n] && k == Key(x, metric)
    ensures forall x :: x in names[..n] && k == Key(x, metric) ==>
              DatasetEntries(names, metric, values, n)[k] == values(x, metric)
  {
    if n > 0 {
      DatasetEntriesMeans(names, metric, values, n - 1, k);
      assert names[..n] == names[..n - 1] + [names[n - 1]];
      forall x | x in names[..n] && k == Key(x, metric)
        ensures DatasetEntries(names, metric, values, n)[k] == values(x, metric)
      {
        if k == Key(names[n - 1], metric) {
          assert k[..|x|] == x && k[..|names[n - 1]|] == names[n - 1];
        }
      }
    }
  }

  /** `k` is a name reported for metric `m`: the training-batch name or
      the name of one of the datasets. */
  predicate ReportedAs(names: seq<string>, k: string, m: string) {
    k == Key("train", m) || exists x :: x in names && k == Key(x, m)
  }

  /** The reported names: `{name}_{metric}` for every dataset and metric,
      and `train_{metric}` for every metric. */
  lemma {:induction false} ReportedKeys<V>(names: seq<string>, metrics: seq<string>, values: (string, string) -> V,
                                          train: string -> V, n: nat, k: string)
    requires n <= |metrics|
    ensures k in Reported(names, metrics, values, train, n) <==> exists m :: m in metrics[..n] && ReportedAs(names, k, m)
  {
    if n > 0 {
      var last := metrics[n - 1];
      var prev := Reported(names, metrics, values, train, n - 1);
      var entries := DatasetEntries(names, last, values, |names|);
      ReportedKeys(names, metrics, values, train, n - 1, k);
      DatasetEntriesMeans(names, last, values, |names|, k);
      assert names[..|names|] == names;
      assert metrics[..n] == metrics[..n - 1] + [last];
      assert k in Reported(names, metrics, values, train, n) <==> k == Key("train", last) || k in prev || k in entries;
      if k in Reported(names, metrics, values, train, n) {
        if k in prev && k != Key("train", last) && k !in entries {
          var m :| m in metrics[..n - 1] && ReportedAs(names, k, m);
          assert m in metrics[..n];
        } else {
          assert ReportedAs(names, k, last);
        }
      } else {
        forall m | m in metrics[..n]
          ensures !ReportedAs(names, k, m)
        {
          if m != last {
            assert m in metrics[..n - 1];
          }
        }
      }
    }
  }

  /** `train_{metric}` holds the training-batch value, even when a
      validation dataset is itself named "train". */
  lemma {:induction false} ReportedTrainValue<V>(names: seq<string>, metrics: seq<string>, values: (string, string) -> V,
                                                train: string -> V, n: nat, m: string)
    requires n <= |metrics| && forall x :: x in metrics ==> x in Supported
    requires m in metrics[..n]
    ensures Key("train", m) in Reported(names, metrics, values, train, n)
    ensures Reported(names, metrics, values, train, n)[Key("train", m)] == train(m)
  {
    var last := metrics[n - 1];
    if m != last {
      assert metrics[..n] == metrics[..n - 1] + [last];
      ReportedTrainValue(names, metrics, values, train, n - 1, m);
      var k := Key("train", m);
      DatasetEntriesMeans(names, last, values, |names|, k);
      if k in DatasetEntries(names, last, values, |names|) {
        var x :| x in names[..|names|] && k == Key(x, last);
        KeyInjective("train", m, x, last);
      }
      if k == Key("train", last) {
        KeyInjective("train", m, "train", last);
      }
    }
  }

  /** `{name}_{metric}` holds the dataset's value for every dataset not
      named "train". */
  lemma {:induction false} ReportedDatasetValue<V>(names: seq<string>, metrics: seq<string>, values: (string, string) -> V,
                                                  train: string -> V, n: nat, x: string, m: string)
    requires n <= |metrics| && forall y :: y in metrics ==> y in Supported
    requires m in metrics[..n] && x in names && x != "train"
    ensures Key(x, m) in Reported(names, metrics, values, train, n)
    ensures Reported(names, metrics, values, train, n)[Key(x, m)] == values(x, m)
  {
    var last := metrics[n - 1];
    var k := Key(x, m);
    assert names[..|names|] == names;
    if k == Key("train", last) {
      KeyInjective(x, m, "train", last);
    }
    DatasetEntriesMeans(names, last, values, |names|, k);
    if m != last {
      assert metrics[..n] == metrics[..n - 1] + [last];
      ReportedDatasetValue(names, metrics, values, train, n - 1, x, m);
      if k in DatasetEntries(names, last, values, |names|) {
        var y :| y in names && k == Key(y, last);
        KeyInjective(x, m, y, last);
      }
    }
  }

  // ------------------------------------------------------------ runner

  /** A callback object and the base classes it derives from; a class may
      derive from both, or from neither. */
  datatype Callback = Callback(id: nat, computes: bool, logs: bool)

  /** `isinstance(c, ComputationCallback)`. */
  predicate IsComputation(c: Callback) {
    c.computes
  }

  /** `isinstance(c, LoggingCallback)`. */
  predicate IsLogging(c: Callback) {
    c.logs
  }

  /** The elements of `cs` that pass `keep`, in their order. */
  function Filter(cs: seq<Callback>, keep: Callback -> bool): seq<Callback> {
    if cs == [] then []
    else Filter(cs[..|cs| - 1], keep) + (if keep(cs[|cs| - 1]) then [cs[|cs| - 1]] else [])
  }

  /** Filtering keeps exactly the elements that pass. */
  lemma {:induction false} FilterMembers(cs: seq<Callback>, keep: Callback -> bool, c: Callback)
    ensures c in Filter(cs, keep) <==> c in cs && keep(c)
  {
    if cs != [] {
      FilterMembers(cs[..|cs| - 1], keep, c);
      assert cs == cs[..|cs| - 1] + [cs[|cs| - 1]];
    }
  }

  /** Filtering distributes over concatenation, so it keeps the order. */
  lemma {:induction false} FilterConcat(a: seq<Callback>, b: seq<Callback>, keep: Callback -> bool)
    ensures Filter(a + b, keep) == Filter(a, keep) + Filter(b, keep)
    decreases |b|
  {
    if b != [] {
      var b' := b[..|b| - 1];
      var last := b[|b| - 1];
      assert (a + b)[..|a + b| - 1] == a + b';
      assert (a + b)[|a + b| - 1] == last;
      FilterConcat(a, b', keep);
      var tail := if keep(last) then [last] else [];
      assert Filter(b, keep) == Filter(b', keep) + tail;
      assert Filter(a + b, keep) == Filter(a + b', keep) + tail;
    } else {
      assert a + b == a;
    }
  }

  /** `[c for c in cs if keep(c)]`. */
  method FilterCallbacks(cs: seq<Callback>, keep: Callback -> bool) returns (r: seq<Callback>)
    ensures r == Filter(cs, keep)
  {
    r := [];
    var i := 0;
    while i < |cs|
      invariant 0 <= i <= |cs|
      invariant r == Filter(cs[..i], keep)
    {
      assert cs[..i + 1][..i] == cs[..i];
      if keep(cs[i]) {
        r := r + [cs[i]];
      }
      i := i + 1;
    }
    assert cs[..|cs|] == cs;
  }

  /** Python's `&` on non-negative integers. */
  function BitAnd(a: nat, b: nat): nat {
    if a == 0 || b == 0 then 0
    else 2 * BitAnd(a / 2, b / 2) + (if a % 2 == 1 && b % 2 == 1 then 1 else 0)
  }

  /** The construction guard as Python evaluates it: `&` binds tighter than
      the comparisons, which then chain, so it reads
      `n_comp == (0 & n_log) and (0 & n_log) != 0`. */
  predicate GuardAsWritten(nComputation: nat, nLogging: nat) {
    nComputation == BitAnd(0, nLogging) && BitAnd(0, nLogging) != 0
  }

  /** The guard never fires, whatever the list lengths. */
  lemma GuardNeverFires(nComputation: nat, nLogging: nat)
    ensures !GuardAsWritten(nComputation, nLogging)
  {
  }

  /** What the sampling does to one validation dataset: keep it whole, or
      draw `count` of its conditions at random. */
  datatype Sample<D> = Whole(data: D) | Drawn(count: int)

  function SampleOf<D>(d: D, count: D -> int): Sample<D> {
    if count(d) == -1 then Whole(d) else Drawn(count(d))
  }

  /** The sampled dictionary after the first `n` validation datasets. */
  function Sampled<D>(data: Dict<D>, count: D -> int, n: nat): (r: Dict<Sample<D>>)
    requires n <= |data|
    ensures DistinctKeys(r)
  {
    if n == 0 then []
    else Put(Sampled(data, count, n - 1), data[n - 1].0, SampleOf(data[n - 1].1, count))
  }

  /** Every validation dataset keeps its name and place; one whose count is
      -1 is passed through unchanged. */
  lemma {:induction false} SampledEntries<D>(data: Dict<D>, count: D -> int, n: nat)
    requires n <= |data| && DistinctKeys(data)
    ensures |Sampled(data, count, n)| == n
    ensures forall i :: 0 <= i < n ==> Sampled(data, count, n)[i] == (data[i].0, SampleOf(data[i].1, count))
  {
    hide Put;
    if n > 0 {
      SampledEntries(data, count, n - 1);
      var prev := Sampled(data, count, n - 1);
      assert data[n - 1].0 !in Keys(prev) by {
        forall i | 0 <= i < |prev| ensures Keys(prev)[i] != data[n - 1].0 {
          assert prev[i].0 == data[i].0;
        }
      }
      var x := (data[n - 1].0, SampleOf(data[n - 1].1, count));
      PutNew(prev, x.0, x.1);
      var r := Sampled(data, count, n);
      assert r == prev + [x];
      forall i | 0 <= i < n ensures r[i] == (data[i].0, SampleOf(data[i].1, count)) {
        if i < n - 1 {
          assert r[i] == prev[i];
        } else {
          assert r[i] == x;
        }
      }
    }
  }

  /** The merge `d.update(r)` of every result, left to right. */
  function Merged<V>(results: seq<map<string, V>>): map<string, V> {
    if results == [] then map[]
    else Merged(results[..|results| - 1]) + results[|results| - 1]
  }

  /** A key of the merge comes from some result, and its value from the
      last result that has it. */
  lemma {:induction false} MergedLastWins<V>(results: seq<map<string, V>>, k: string)
    ensures k in Merged(results) <==> exists i :: 0 <= i < |results| && k in results[i]
    ensures forall i :: 0 <= i < |results| && k in results[i] &&
                        (forall j :: i < j < |results| ==> k !in results[j]) ==>
                          Merged(results)[k] == results[i][k]
  {
    if results != [] {
      var prefix := results[..|results| - 1];
      MergedLastWins(prefix, k);
      forall i | 0 <= i < |prefix| ensures prefix[i] == results[i] { }
    }
  }

  /** What every computation callback returns on the sampled data. */
  function Results<D, V>(computation: seq<Callback>, compute: (Callback, Dict<Sample<D>>) -> map<string, V>,
                         sampled: Dict<Sample<D>>): (rs: seq<map<string, V>>)
    ensures |rs| == |computation| && forall i :: 0 <= i < |computation| ==> rs[i] == compute(computation[i], sampled)
  {
    seq(|computation|, i requires 0 <= i < |computation| => compute(computation[i], sampled))
  }

  /** The loop of `_sample_validation_data`: every dataset in order,
      sampled with its count and stored under its name. */
  method SampleAll<D>(data: Dict<D>, count: D -> int) returns (sampled: Dict<Sample<D>>)
    requires DistinctKeys(data)
    ensures sampled == Sampled(data, count, |data|)
    ensures |sampled| == |data| && forall i :: 0 <= i < |data| ==> sampled[i].0 == data[i].0
  {
    sampled := [];
    var i := 0;
    while i < |data|
      invariant 0 <= i <= |data|
      invariant sampled == Sampled(data, count, i)
    {
      sampled := Put(sampled, data[i].0, SampleOf(data[i].1, count));
      i := i + 1;
    }
    SampledEntries(data, count, |data|);
  }

  class CallbackRunner<D> {
    var validationData: Dict<D>
    var computation: seq<Callback>
    var logging: seq<Callback>
    var seed: int

    /** The validation datasets have distinct names, as the keys of a
        dictionary, and each list holds only callbacks of its kind. */
    ghost predicate Valid()
      reads this
    {
      && DistinctKeys(validationData)
      && (forall i :: 0 <= i < |computation| ==> IsComputation(computation[i]))
      && (forall i :: 0 <= i < |logging| ==> IsLogging(logging[i]))
    }

    /** Keeps the computation and the logging callbacks in their order;
        construction never fails (see `GuardAsWritten`). */
    constructor (callbacks: seq<Callback>, data: Dict<D>, seed: int)
      requires DistinctKeys(data)
      ensures Valid()
      ensures validationData == data && this.seed == seed
      ensures computation == Filter(callbacks, IsComputation)
      ensures logging == Filter(callbacks, IsLogging)
      ensures !GuardAsWritten(|computation|, |logging|)
    {
      var comp := FilterCallbacks(callbacks, IsComputation);
      var logs := FilterCallbacks(callbacks, IsLogging);
      validationData := data;
      computation := comp;
      logging := logs;
      this.seed := seed;
      GuardNeverFires(|comp|, |logs|);
      forall i | 0 <= i < |comp| ensures IsComputation(comp[i]) {
        FilterMembers(callbacks, IsComputation, comp[i]);
      }
      forall i | 0 <= i < |logs| ensures IsLogging(logs[i]) {
        FilterMembers(callbacks, IsLogging, logs[i]);
      }
    }

    /** `_sample_validation_data(stage)`; `onTrainEnd` and `onLogIteration`
        give each dataset's configured number of conditions. */
    method SampleValidationData(stage: string, onTrainEnd: D -> int, onLogIteration: D -> int)
      returns (r: Result<Dict<Sample<D>>, Error>)
      requires Valid()
      ensures stage == "on_train_end" ==> r == Ok(Sampled(validationData, onTrainEnd, |validationData|))
      ensures stage == "on_log_iteration" ==> r == Ok(Sampled(validationData, onLogIteration, |validationData|))
      ensures stage != "on_train_end" && stage != "on_log_iteration" ==> r == Err(UnsupportedStage(stage))
      ensures r.Ok? ==>
        && |r.value| == |validationData|
        && forall i :: 0 <= i < |validationData| ==> r.value[i].0 == validationData[i].0
    {
      var count;
      if stage == "on_train_end" {
        count := onTrainEnd;
      } else if stage == "on_log_iteration" {
        count := onLogIteration;
      } else {
        return Err(UnsupportedStage(stage));
      }
      var sampled := SampleAll(validationData, count);
      r := Ok(sampled);
    }

    /** `on_train_begin`: the callbacks whose begin hook runs, in call order. */
    method OnTrainBegin() returns (calls: seq<Callback>)
      requires Valid()
      ensures calls == computation + logging
    {
      calls := [];
      var i := 0;
      while i < |computation|
        invariant 0 <= i <= |computation|
        invariant calls == computation[..i]
      {
        calls := calls + [computation[i]];
        i := i + 1;
      }
      var j := 0;
      while j < |logging|
        invariant 0 <= j <= |logging|
        invariant calls == computation + logging[..j]
      {
        calls := calls + [logging[j]];
        j := j + 1;
      }
    }

    /** Runs the computation callbacks on the sampled data and merges their
        results, then hands the merged map to every logging callback. */
    method RunCallbacks<V>(sampled: Dict<Sample<D>>, compute: (Callback, Dict<Sample<D>>) -> map<string, V>)
      returns (dictToLog: map<string, V>, delivered: seq<(Callback, map<string, V>)>)
      requires Valid()
      ensures dictToLog == Merged(Results(computation, compute, sampled))
      ensures |delivered| == |logging|
      ensures forall i :: 0 <= i < |logging| ==> delivered[i] == (logging[i], dictToLog)
    {
      dictToLog := map[];
      var i := 0;
      while i < |computation|
        invariant 0 <= i <= |computation|
        invariant dictToLog == Merged(Results(computation[..i], compute, sampled))
      {
        assert Results(computation[..i + 1], compute, sampled)[..i] == Results(computation[..i], compute, sampled);
        dictToLog := dictToLog + compute(computation[i], sampled);
        i := i + 1;
      }
      assert computation[..|computation|] == computation;
      delivered := [];
      var j := 0;
      while j < |logging|
        invariant 0 <= j <= |logging|
        invariant |delivered| == j
        invariant forall k :: 0 <= k < j ==> delivered[k] == (logging[k], dictToLog)
      {
        delivered := delivered + [(logging[j], dictToLog)];
        j := j + 1;
      }
    }

    /** `on_log_iteration`: samples with the stage "on_log_iteration",
        then runs the callbacks. */
    method OnLogIteration<V>(compute: (Callback, Dict<Sample<D>>) -> map<string, V>,
                             onTrainEnd: D -> int, onLogIteration: D -> int)
      returns (dictToLog: map<string, V>, delivered: seq<(Callback, map<string, V>)>)
      requires Valid()
      ensures dictToLog == Merged(Results(computation, compute, Sampled(validationData, onLogIteration, |validationData|)))
      ensures |delivered| == |logging|
      ensures forall i :: 0 <= i < |logging| ==> delivered[i] == (logging[i], dictToLog)
    {
      var sampled := SampleValidationData("on_log_iteration", onTrainEnd, onLogIteration);
      dictToLog, delivered := RunCallbacks(sampled.value, compute);
    }

    /** `on_train_end`: samples with the stage "on_log_iteration" as well, so
        the configured end-of-training counts are never used, and calls the
        same hooks as `on_log_iteration`. */
    method OnTrainEnd<V>(compute: (Callback, Dict<Sample<D>>) -> map<string, V>,
                         onTrainEnd: D -> int, onLogIteration: D -> int)
      returns (dictToLog: map<string, V>, delivered: seq<(Callback, map<string, V>)>)
      requires Valid()
      ensures dictToLog == Merged(Results(computation, compute, Sampled(validationData, onLogIteration, |validationData|)))
      ensures |delivered| == |logging|
      ensures forall i :: 0 <= i < |logging| ==> delivered[i] == (logging[i], dictToLog)
    {
      var sampled := SampleValidationData("on_log_iteration", onTrainEnd, onLogIteration);
      dictToLog, delivered := RunCallbacks(sampled.value, compute);
    }
  }
}
