/** The writer of merged metrics, and when it keeps everything it is given. */
module WriteMetrics {
  import opened Metrics

  datatype Sample = Sample(key: Key, value: real)

  datatype Metric = Metric(kind: Kind, samples: seq<Sample>)

  /** The part of prometheus_client's file-backed dictionary that is used: a later write replaces an earlier one. */
  class MmapedDict {
    var table: Table

    constructor ()
      ensures table == map[]
    {
      table := map[];
    }

    method WriteValue(key: Key, value: real)
      modifies this
      ensures table == old(table)[key := value]
    {
      table := table[key := value];
    }
  }

  /** The table left by writing `samples` one after the other. */
  function Written(samples: seq<Sample>): Table {
    if samples == [] then map[]
    else
      var last := samples[|samples| - 1];
      Written(samples[..|samples| - 1])[last.key := last.value]
  }

  /** The samples of every metric of one kind, in order. */
  function SamplesOf(metrics: seq<Metric>, kind: Kind): seq<Sample> {
    if metrics == [] then []
    else
      var last := metrics[|metrics| - 1];
      SamplesOf(metrics[..|metrics| - 1], kind) + if last.kind == kind then last.samples else []
  }

  /** The samples of one metric, written to its sink. */
  method WriteSamples(sink: MmapedDict, samples: seq<Sample>, ghost before: seq<Sample>)
    requires sink.table == Written(before)
    modifies sink
    ensures sink.table == Written(before + samples)
  {
    assert before + samples[..0] == before;
    for j := 0 to |samples|
      invariant sink.table == Written(before + samples[..j])
    {
      sink.WriteValue(samples[j].key, samples[j].value);
      assert before + samples[..j + 1] == before + samples[..j] + [samples[j]];
    }
    assert samples[..|samples|] == samples;
  }

  method WriteAll(metrics: seq<Metric>) returns (histograms: MmapedDict, counters: MmapedDict)
    ensures fresh(histograms) && fresh(counters) && histograms != counters
    ensures histograms.table == Written(SamplesOf(metrics, Histogram))
    ensures counters.table == Written(SamplesOf(metrics, Counter))
    ensures forall t: Table :: Lists(metrics, t) ==>
              histograms.table == Restrict(t, Histogram) && counters.table == Restrict(t, Counter)
  {
    histograms := new MmapedDict();
    counters := new MmapedDict();
    for i := 0 to |metrics|
      invariant fresh(histograms) && fresh(counters) && histograms != counters
      invariant histograms.table == Written(SamplesOf(metrics[..i], Histogram))
      invariant counters.table == Written(SamplesOf(metrics[..i], Counter))
    {
      var metric := metrics[i];
      SamplesStep(metrics, i);
      if metric.kind == Histogram {
        WriteSamples(histograms, metric.samples, SamplesOf(metrics[..i], Histogram));
      } else if metric.kind == Counter {
        WriteSamples(counters, metric.samples, SamplesOf(metrics[..i], Counter));
      }
    }
    assert metrics[..|metrics|] == metrics;
    forall t: Table | Lists(metrics, t)
      ensures histograms.table == Restrict(t, Histogram) && counters.table == Restrict(t, Counter)
    {
      ListedIsWritten(metrics, t, Histogram);
      ListedIsWritten(metrics, t, Counter);
    }
  }

  lemma SamplesStep(metrics: seq<Metric>, i: nat)
    requires i < |metrics|
    ensures forall kind :: SamplesOf(metrics[..i + 1], kind)
                           == if metrics[i].kind == kind then SamplesOf(metrics[..i], kind) + metrics[i].samples
                              else SamplesOf(metrics[..i], kind)
  {
    assert metrics[..i + 1][..i] == metrics[..i];
  }

  predicate DistinctKeys(samples: seq<Sample>) {
    forall i, j :: 0 <= i < j < |samples| ==> samples[i].key != samples[j].key
  }

  /** What a merge yields: every key of `t` once, with its value, under a metric of its kind. */
  ghost predicate Lists(metrics: seq<Metric>, t: Table) {
    forall kind: Kind ::
      var samples := SamplesOf(metrics, kind);
      && DistinctKeys(samples)
      && (forall s :: s in samples ==> s.key.kind == kind && s.key in t && t[s.key] == s.value)
      && (forall k :: k in t && k.kind == kind ==> Sample(k, t[k]) in samples)
  }

  lemma {:induction false} WrittenKeys(samples: seq<Sample>, k: Key)
    ensures k in Written(samples) <==> exists i :: 0 <= i < |samples| && samples[i].key == k
    ensures k in Written(samples) ==> Sample(k, Written(samples)[k]) in samples
  {
    if samples != [] {
      var n := |samples| - 1;
      WrittenKeys(samples[..n], k);
      assert samples == samples[..n] + [samples[n]];
      if k in Written(samples) {
        if k == samples[n].key {
          assert samples[n] == Sample(k, Written(samples)[k]);
        } else {
          var i :| 0 <= i < n && samples[..n][i].key == k;
          assert samples[i].key == k;
        }
      }
    }
  }

  lemma {:induction false} LastWins(samples: seq<Sample>, i: nat)
    requires i < |samples|
    requires forall j :: i < j < |samples| && samples[j].key == samples[i].key ==> samples[j].value == samples[i].value
    ensures samples[i].key in Written(samples) && Written(samples)[samples[i].key] == samples[i].value
  {
    var n := |samples| - 1;
    if i < n && samples[n].key != samples[i].key {
      LastWins(samples[..n], i);
    }
  }

  /** No sample is lost to a later one exactly when samples with one key agree on its value. */
  lemma {:induction false} NothingOverwritten(samples: seq<Sample>)
    ensures (forall i :: 0 <= i < |samples| ==>
                           samples[i].key in Written(samples) && Written(samples)[samples[i].key] == samples[i].value)
            <==> (forall i, j :: 0 <= i < j < |samples| && samples[i].key == samples[j].key ==>
                                   samples[i].value == samples[j].value)
  {
    if forall i, j :: 0 <= i < j < |samples| && samples[i].key == samples[j].key ==>
                        samples[i].value == samples[j].value {
      forall i | 0 <= i < |samples|
        ensures samples[i].key in Written(samples) && Written(samples)[samples[i].key] == samples[i].value
      {
        LastWins(samples, i);
      }
    }
  }

  /** Writing the samples of a merge rebuilds the part of the merge that is of that kind. */
  lemma ListedIsWritten(metrics: seq<Metric>, t: Table, kind: Kind)
    requires Lists(metrics, t)
    ensures Written(SamplesOf(metrics, kind)) == Restrict(t, kind)
  {
    var samples := SamplesOf(metrics, kind);
    forall k
      ensures k in Written(samples) <==> k in Restrict(t, kind)
      ensures k in Written(samples) ==> Written(samples)[k] == t[k]
    {
      WrittenKeys(samples, k);
      if k in t && k.kind == kind {
        var i :| 0 <= i < |samples| && samples[i] == Sample(k, t[k]);
        assert samples[i].key == k;
      }
    }
  }
}
