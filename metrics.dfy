/** An abstract view of the two labelled summaries the package registers at
    start-up (`requestTime` and `dependencyTime`): for every triple of label
    values, the sequence of durations observed under it, in order. Durations
    are abstract clock ticks. */
module Metrics {

  datatype Option<T> = None | Some(value: T)

  /** The label values of one observation, in the order of the summary's
      label names. */
  type Key = (string, string, string)

  /** Label names of the HTTP response-time summary. */
  const HttpLabelNames: seq<string> := ["status_class", "request", "method"]
  /** Label names of the dependency response-time summary. */
  const DependencyLabelNames: seq<string> := ["type", "request", "status_class"]

  /** The label values of a key as the list `WithLabelValues` receives. */
  function Values(k: Key): seq<string>
  {
    [k.0, k.1, k.2]
  }

  /** The value given to label `name`: label names and values are paired by
      position, and the first label of that name counts. */
  function Lookup(names: seq<string>, values: seq<string>, name: string): (v: Option<string>)
    requires |names| == |values|
    ensures v.None? <==> name !in names
    ensures v.Some? ==> exists i :: 0 <= i < |names| && names[i] == name
                                   && values[i] == v.value && name !in names[..i]
  {
    if |names| == 0 then None
    else if names[0] == name then
      assert name !in names[..0];
      Some(values[0])
    else
      var v := Lookup(names[1..], values[1..], name);
      assert names == [names[0]] + names[1..];
      if v.Some? then
        var i :| 0 <= i < |names[1..]| && names[1..][i] == name
                 && values[1..][i] == v.value && name !in names[1..][..i];
        assert names[..i + 1] == [names[0]] + names[1..][..i];
        v
      else v
  }

  /** The observations recorded so far under `k`. */
  function Samples(m: map<Key, seq<nat>>, k: Key): seq<nat>
  {
    if k in m then m[k] else []
  }

  /** One `Observe(v)` on the child of label values `k`. */
  function Append(m: map<Key, seq<nat>>, k: Key, v: nat): (m': map<Key, seq<nat>>)
    ensures Samples(m', k) == Samples(m, k) + [v]
    ensures forall k' :: k' != k ==> Samples(m', k') == Samples(m, k')
    ensures m'.Keys == m.Keys + {k}
  {
    m[k := Samples(m, k) + [v]]
  }

  /** Sum of the observed durations. */
  function Sum(s: seq<nat>): nat
  {
    if s == [] then 0 else s[0] + Sum(s[1..])
  }

  lemma {:induction false} SumAppend(s: seq<nat>, v: nat)
    ensures Sum(s + [v]) == Sum(s) + v
  {
    if s != [] {
      assert (s + [v])[1..] == s[1..] + [v];
      SumAppend(s[1..], v);
    } else {
      assert [] + [v] == [v];
      assert [v][1..] == [];
    }
  }

  /** Number of observations recorded under all keys together. */
  ghost function Total(m: map<Key, seq<nat>>): nat
    decreases |m|
  {
    if |m| == 0 then 0
    else
      var k :| k in m;
      |m[k]| + Total(m - {k})
  }

  /** Removing one key makes the map smaller, and removals commute. */
  lemma RemoveTwo(m: map<Key, seq<nat>>, j: Key, k: Key)
    requires j in m && k in m && j != k
    ensures |m - {j}| < |m| && |m - {k}| < |m|
    ensures k in m - {j} && (m - {j})[k] == m[k]
    ensures j in m - {k} && (m - {k})[j] == m[j]
    ensures (m - {j}) - {k} == (m - {k}) - {j}
  {
  }

  /** Total of a non-empty map is one of its entries plus the total of the rest. */
  lemma TotalPick(m: map<Key, seq<nat>>)
    requires |m| != 0
    ensures exists j :: j in m && Total(m) == |m[j]| + Total(m - {j})
  {
  }

  /** The key Total picks can be any key of the map. */
  lemma {:induction false} TotalRemove(m: map<Key, seq<nat>>, k: Key)
    requires k in m
    ensures Total(m) == |m[k]| + Total(m - {k})
    decreases |m|
  {
    TotalPick(m);
    var j :| j in m && Total(m) == |m[j]| + Total(m - {j});
    if j != k {
      RemoveTwo(m, j, k);
      TotalRemove(m - {j}, k);
      TotalRemove(m - {k}, j);
    }
  }

  /** Every observation adds exactly one to the total. */
  lemma AppendTotal(m: map<Key, seq<nat>>, k: Key, v: nat)
    ensures Total(Append(m, k, v)) == Total(m) + 1
  {
    var m' := Append(m, k, v);
    TotalRemove(m', k);
    if k in m {
      TotalRemove(m, k);
      assert m' - {k} == m - {k};
    } else {
      assert m' - {k} == m;
    }
  }

  /** Observations of a sequence of calls, in order. */
  function RecordAll(m: map<Key, seq<nat>>, events: seq<(Key, nat)>): map<Key, seq<nat>>
    decreases |events|
  {
    if events == [] then m
    else RecordAll(Append(m, events[0].0, events[0].1), events[1..])
  }

  /** Number of events that carry key `k`. */
  function CountKey(events: seq<(Key, nat)>, k: Key): nat
  {
    if events == [] then 0
    else (if events[0].0 == k then 1 else 0) + CountKey(events[1..], k)
  }

  /** N calls give N observations altogether: none lost, none doubled. */
  lemma {:induction false} RecordAllTotal(m: map<Key, seq<nat>>, events: seq<(Key, nat)>)
    ensures Total(RecordAll(m, events)) == Total(m) + |events|
    decreases |events|
  {
    if events != [] {
      AppendTotal(m, events[0].0, events[0].1);
      RecordAllTotal(Append(m, events[0].0, events[0].1), events[1..]);
    }
  }

  /** Per key, the number of observations grows by the number of calls that
      carried that key. */
  lemma {:induction false} RecordAllCount(m: map<Key, seq<nat>>, events: seq<(Key, nat)>, k: Key)
    ensures |Samples(RecordAll(m, events), k)| == |Samples(m, k)| + CountKey(events, k)
    decreases |events|
  {
    if events != [] {
      RecordAllCount(Append(m, events[0].0, events[0].1), events[1..], k);
    }
  }

  /** One labelled summary (`prometheus.SummaryVec`): a name, its label names,
      and the observations recorded under each triple of label values. */
  class SummaryVec {
    const namespace: string
    const name: string
    const labelNames: seq<string>
    var samples: map<Key, seq<nat>>

    constructor (namespace: string, name: string, labelNames: seq<string>)
      ensures this.namespace == namespace && this.name == name
      ensures this.labelNames == labelNames && samples == map[]
    {
      this.namespace := namespace;
      this.name := name;
      this.labelNames := labelNames;
      samples := map[];
    }

    /** `WithLabelValues(k.0, k.1, k.2).Observe(v)`. */
    method Observe(k: Key, v: nat)
      modifies this
      ensures samples == Append(old(samples), k, v)
    {
      samples := Append(samples, k, v);
    }
  }

  /** The package-level summaries `requestTime` and `dependencyTime`, as one
      explicitly constructed object. */
  class Registry {
    const requestTime: SummaryVec
    const dependencyTime: SummaryVec

    ghost predicate Valid()
    {
      requestTime != dependencyTime
      && requestTime.labelNames == HttpLabelNames
      && dependencyTime.labelNames == DependencyLabelNames
    }

    /** `initHttpTime("http", "response_time", …)` and
        `initDependencyTime("dependancy", "response_time", …)`. */
    constructor ()
      ensures Valid() && fresh(requestTime) && fresh(dependencyTime)
      ensures requestTime.namespace == "http" && requestTime.name == "response_time"
      ensures dependencyTime.namespace == "dependancy" && dependencyTime.name == "response_time"
      ensures requestTime.samples == map[] && dependencyTime.samples == map[]
    {
      requestTime := new SummaryVec("http", "response_time", HttpLabelNames);
      dependencyTime := new SummaryVec("dependancy", "response_time", DependencyLabelNames);
    }
  }

  /** Under the HTTP summary's label names, the components of a key are, in
      order, the status class, the request and the method. */
  lemma HttpLabelOrder(k: Key)
    ensures Lookup(HttpLabelNames, Values(k), "status_class") == Some(k.0)
    ensures Lookup(HttpLabelNames, Values(k), "request") == Some(k.1)
    ensures Lookup(HttpLabelNames, Values(k), "method") == Some(k.2)
  {
  }

  /** Under the dependency summary's label names, the components of a key are,
      in order, the dependency type, the request and the outcome. */
  lemma DependencyLabelOrder(k: Key)
    ensures Lookup(DependencyLabelNames, Values(k), "type") == Some(k.0)
    ensures Lookup(DependencyLabelNames, Values(k), "request") == Some(k.1)
    ensures Lookup(DependencyLabelNames, Values(k), "status_class") == Some(k.2)
  {
  }
}
