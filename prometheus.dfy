/** The Prometheus helpers of the analysis notebooks: the builder of one
    metric in the Prometheus text exposition format, and the collection of
    a range-query response into one series per pod. */
module Prometheus {
  import opened Basics
  import opened PyStr

  // ---------------------------------------------------------------------
  // build_prometheus_plain_metric

  /** The metric type used when the caller names none. */
  const DEFAULT_TYPE: string := "gauge"

  /** The comment line `# TYPE <name> <type>`. */
  function TypeLine(name: string, metricType: string): string
  {
    "# TYPE " + name + " " + metricType
  }

  /** One label rendered as `name="value"`. */
  function LabelPair(entry: (string, string)): (r: string)
    ensures r == entry.0 + "=" + "\"" + entry.1 + "\""
  {
    entry.0 + "=\"" + entry.1 + "\""
  }

  /** The rendered labels, in the order the dictionary iterates them. */
  function LabelPairs(labels: seq<(string, string)>): (r: seq<string>)
    ensures |r| == |labels|
    ensures forall k :: 0 <= k < |labels| ==> r[k] == LabelPair(labels[k])
  {
    seq(|labels|, k requires 0 <= k < |labels| => LabelPair(labels[k]))
  }

  /** `{k1="v1",k2="v2"}`, or nothing at all when there are no labels. */
  function LabelBlock(labels: seq<(string, string)>): (r: string)
    ensures labels == [] <==> r == []
    ensures labels != [] ==> r == "{" + Join(LabelPairs(labels), ',') + "}"
  {
    if |labels| > 0 then "{" + Join(LabelPairs(labels), ',') + "}" else ""
  }

  /** The optional timestamp field, with the space before it. */
  function AtField(at: Option<int>): string
  {
    if at.Some? then " " + IntToStr(at.value) else ""
  }

  /** The sample line `name{labels} value [timestamp]`; `valueText` is the
      text Python prints for the value. */
  function SampleLine(name: string, valueText: string, labels: seq<(string, string)>, at: Option<int>): string
  {
    name + LabelBlock(labels) + " " + valueText + AtField(at)
  }

  /** `build_prometheus_plain_metric(name, value, labels, type, at)`. */
  function BuildPlainMetric(name: string, valueText: string, labels: seq<(string, string)>,
                            metricType: string := DEFAULT_TYPE, at: Option<int> := None): string
  {
    TypeLine(name, metricType) + "\n" + SampleLine(name, valueText, labels, at)
  }

  /** Where the two halves of a concatenation sit in it. */
  lemma ConcatParts(a: string, b: string)
    ensures (a + b)[..|a|] == a
    ensures 0 < |b| ==> (a + b)[|a|] == b[0]
    ensures (a + b)[|a + b| - |b|..] == b
  {
  }

  /** The metric cut after the name, and the sample line cut before the
      space that precedes the value. */
  lemma MetricParts(name: string, valueText: string, labels: seq<(string, string)>,
                    metricType: string, at: Option<int>)
    ensures var tail := " " + valueText + AtField(at);
      && SampleLine(name, valueText, labels, at) == name + LabelBlock(labels) + tail
      && BuildPlainMetric(name, valueText, labels, metricType, at)
         == TypeLine(name, metricType) + "\n" + name + (LabelBlock(labels) + tail)
  {
    var line, b, a := TypeLine(name, metricType), LabelBlock(labels), AtField(at);
    var nb, sp := name + b, " " + valueText;
    AppendAssoc(nb, " ", valueText);
    AppendAssoc(nb, sp, a);
    AppendAssoc(name, b, sp + a);
    AppendAssoc(line + "\n", name, b + (sp + a));
  }

  /** The metric opens with the type comment, a line break and the name; a
      brace follows the name exactly when there are labels, a space
      otherwise. */
  lemma PlainMetricHead(name: string, valueText: string, labels: seq<(string, string)>,
                        metricType: string, at: Option<int>)
    ensures var metric := BuildPlainMetric(name, valueText, labels, metricType, at);
      StartsWith(metric, TypeLine(name, metricType) + "\n" + name)
    ensures var metric := BuildPlainMetric(name, valueText, labels, metricType, at);
      var n := |TypeLine(name, metricType) + "\n" + name|;
      n < |metric| && (labels != [] <==> metric[n] == '{') && (labels == [] ==> metric[n] == ' ')
  {
    MetricParts(name, valueText, labels, metricType, at);
    var head, b, tail := TypeLine(name, metricType) + "\n" + name, LabelBlock(labels), " " + valueText + AtField(at);
    ConcatParts(head, b + tail);
    assert tail[0] == ' ';
    if labels != [] {
      var inner := Join(LabelPairs(labels), ',');
      assert b == "{" + inner + "}";
      assert (b + tail)[0] == '{';
    } else {
      assert b + tail == tail;
    }
  }

  /** The metric closes with the value and, exactly when one is given, the
      timestamp, each after one space. */
  lemma PlainMetricTail(name: string, valueText: string, labels: seq<(string, string)>,
                        metricType: string, at: Option<int>)
    ensures var metric := BuildPlainMetric(name, valueText, labels, metricType, at);
      at.None? ==> EndsWith(metric, " " + valueText)
    ensures var metric := BuildPlainMetric(name, valueText, labels, metricType, at);
      at.Some? ==> EndsWith(metric, " " + valueText + " " + IntToStr(at.value))
  {
    MetricParts(name, valueText, labels, metricType, at);
    var head, b, sp, a := TypeLine(name, metricType) + "\n" + name, LabelBlock(labels), " " + valueText, AtField(at);
    AppendAssoc(head, b, sp + a);
    ConcatParts(head + b, sp + a);
    if at.Some? {
      AppendAssoc(sp, " ", IntToStr(at.value));
    } else {
      assert sp + a == sp;
    }
  }

  /** With neither labels nor a timestamp the metric is exactly the type
      line and `name value`. */
  lemma PlainMetricBare(name: string, valueText: string)
    ensures BuildPlainMetric(name, valueText, [])
         == "# TYPE " + name + " " + DEFAULT_TYPE + "\n" + name + " " + valueText
  {
  }

  /** No text field of the metric holds character `c`. */
  predicate FieldsFree(c: char, name: string, valueText: string, labels: seq<(string, string)>, metricType: string)
  {
    && c !in name && c !in valueText && c !in metricType
    && forall k :: 0 <= k < |labels| ==> c !in labels[k].0 && c !in labels[k].1
  }

  /** The rendered labels hold no `c` when neither their names nor their
      values do (and `c` is not part of the `="` `"` `,` `{}` punctuation). */
  lemma LabelBlockFree(labels: seq<(string, string)>, c: char)
    requires c != '=' && c != '"' && c != ',' && c != '{' && c != '}'
    requires forall k :: 0 <= k < |labels| ==> c !in labels[k].0 && c !in labels[k].1
    ensures c !in LabelBlock(labels)
  {
    if labels != [] {
      var pairs := LabelPairs(labels);
      forall k | 0 <= k < |pairs| ensures c !in pairs[k] {
        assert pairs[k] == labels[k].0 + "=\"" + labels[k].1 + "\"";
      }
      NotInJoin(pairs, ',', c);
    }
  }

  /** The metric is two lines: the type comment and the sample, as long as
      no field holds a line break. */
  lemma MetricLines(name: string, valueText: string, labels: seq<(string, string)>, metricType: string, at: Option<int>)
    requires FieldsFree('\n', name, valueText, labels, metricType)
    ensures Split(BuildPlainMetric(name, valueText, labels, metricType, at), '\n')
         == [TypeLine(name, metricType), SampleLine(name, valueText, labels, at)]
  {
    LabelBlockFree(labels, '\n');
    MetricParts(name, valueText, labels, metricType, at);
    var typeLine, sample := TypeLine(name, metricType), SampleLine(name, valueText, labels, at);
    assert '\n' !in AtField(at);
    assert '\n' !in typeLine;
    assert '\n' !in sample;
    SplitJoin([typeLine, sample], '\n');
  }

  /** The sample line's space-separated fields are the series (name and
      labels), the value, and the timestamp exactly when one is given; the
      timestamp reads back as `at`. */
  lemma SampleFields(name: string, valueText: string, labels: seq<(string, string)>, metricType: string, at: Option<int>)
    requires FieldsFree(' ', name, valueText, labels, metricType)
    ensures var fields := Split(SampleLine(name, valueText, labels, at), ' ');
      && |fields| == (if at.Some? then 3 else 2)
      && fields[0] == name + LabelBlock(labels) && fields[1] == valueText
      && (at.Some? ==> fields[2] == IntToStr(at.value) && StrToInt(fields[2]) == at.value)
  {
    LabelBlockFree(labels, ' ');
    MetricParts(name, valueText, labels, metricType, at);
    var series, sp, a := name + LabelBlock(labels), " " + valueText, AtField(at);
    assert ' ' !in series;
    if at.Some? {
      var stamp := IntToStr(at.value);
      assert ' ' !in stamp;
      var parts := [series, valueText, stamp];
      assert parts[1..] == [valueText, stamp];
      assert Join([valueText, stamp], ' ') == valueText + " " + stamp;
      AppendAssoc(series, " ", valueText + " " + stamp);
      AppendAssoc(valueText, " ", stamp);
      AppendAssoc(" ", valueText, " " + stamp);
      SplitJoin(parts, ' ');
      IntToStrRoundTrip(at.value);
    } else {
      var parts := [series, valueText];
      assert sp + a == sp;
      AppendAssoc(series, " ", valueText);
      SplitJoin(parts, ' ');
    }
  }

  /** Inside the braces, the labels come back one by one when split at the
      commas, in order, with no trailing empty piece. */
  lemma LabelFields(labels: seq<(string, string)>)
    requires labels != []
    requires forall k :: 0 <= k < |labels| ==> ',' !in labels[k].0 && ',' !in labels[k].1
    ensures var block := LabelBlock(labels);
      Split(block[1..|block| - 1], ',') == LabelPairs(labels)
  {
    var pairs := LabelPairs(labels);
    forall k | 0 <= k < |pairs| ensures ',' !in pairs[k] {
      assert pairs[k] == labels[k].0 + "=\"" + labels[k].1 + "\"";
    }
    var block := LabelBlock(labels);
    assert block[1..|block| - 1] == Join(pairs, ',');
    SplitJoin(pairs, ',');
  }

  // ---------------------------------------------------------------------
  // prometheus_vector_series

  /** One entry of a query response's `data.result` list: the metric's label
      dictionary and its `[timestamp, value]` samples as numbers. */
  datatype SeriesResult = SeriesResult(metric: map<string, string>, values: seq<(real, real)>)

  /** The frame of one pod: its samples as (timestamp, value) rows. */
  type Frame = seq<(real, real)>

  /** The per-pod frames after folding in `results` from first to last; a
      result without a "pod" label raises KeyError. */
  function VectorSeriesOf(results: seq<SeriesResult>): Result<map<string, Frame>, PyError>
  {
    if results == [] then Ok(map[])
    else
      var last := results[|results| - 1];
      match VectorSeriesOf(results[..|results| - 1])
      case Err(e) => Err(e)
      case Ok(res) =>
        if "pod" !in last.metric then Err(MissingKey("pod"))
        else Ok(res[last.metric["pod"] := last.values])
  }

  /** `prometheus_vector_series(response)`, on the response's result list. */
  method VectorSeries(results: seq<SeriesResult>) returns (r: Result<map<string, Frame>, PyError>)
    ensures r == VectorSeriesOf(results)
  {
    var res: map<string, Frame> := map[];
    var i := 0;
    while i < |results|
      invariant 0 <= i <= |results|
      invariant VectorSeriesOf(results[..i]) == Ok(res)
    {
      var metric := results[i];
      assert results[..i + 1][..i] == results[..i];
      if "pod" !in metric.metric {
        assert VectorSeriesOf(results[..i + 1]) == Err(MissingKey("pod"));
        ErrorPersists(results, i + 1);
        return Err(MissingKey("pod"));
      }
      var key := metric.metric["pod"];
      res := res[key := metric.values];
      i := i + 1;
    }
    assert results[..i] == results;
    r := Ok(res);
  }

  /** Once a prefix of the results has failed, the whole fold fails with the
      same error. */
  lemma {:induction false} ErrorPersists(results: seq<SeriesResult>, n: nat)
    requires n <= |results| && VectorSeriesOf(results[..n]).Err?
    ensures VectorSeriesOf(results) == VectorSeriesOf(results[..n])
    decreases |results| - n
  {
    if n == |results| {
      assert results[..n] == results;
    } else {
      assert results[..n + 1][..n] == results[..n];
      ErrorPersists(results, n + 1);
    }
  }

  /** The fold fails exactly when some result has no "pod" label. */
  lemma {:induction false} VectorSeriesFails(results: seq<SeriesResult>)
    ensures VectorSeriesOf(results).Err? <==> exists k :: 0 <= k < |results| && "pod" !in results[k].metric
    ensures VectorSeriesOf(results).Err? ==> VectorSeriesOf(results) == Err(MissingKey("pod"))
  {
    if results != [] {
      var init := results[..|results| - 1];
      VectorSeriesFails(init);
      if exists k :: 0 <= k < |init| && "pod" !in init[k].metric {
        var k :| 0 <= k < |init| && "pod" !in init[k].metric;
        assert results[k] == init[k];
      }
      if exists k :: 0 <= k < |results| && "pod" !in results[k].metric {
        var k :| 0 <= k < |results| && "pod" !in results[k].metric;
        if k < |init| {
          assert init[k] == results[k];
        }
      }
    }
  }

  /** The pod a result belongs to. */
  function PodOf(result: SeriesResult): string
    requires "pod" in result.metric
  {
    result.metric["pod"]
  }

  /** The fold has one entry per pod named in the results, and no other. */
  lemma {:induction false} VectorSeriesKeys(results: seq<SeriesResult>)
    requires VectorSeriesOf(results).Ok?
    ensures forall k :: 0 <= k < |results| ==> "pod" in results[k].metric
    ensures VectorSeriesOf(results).value.Keys
         == set k | 0 <= k < |results| && "pod" in results[k].metric :: PodOf(results[k])
  {
    VectorSeriesFails(results);
    if results != [] {
      VectorSeriesKeys(results[..|results| - 1]);
      PodsOfPrefix(results);
    }
  }

  /** The pods named by all the results: those named before the last one,
      and the last one's. */
  lemma PodsOfPrefix(results: seq<SeriesResult>)
    requires results != []
    requires forall k :: 0 <= k < |results| ==> "pod" in results[k].metric
    ensures var init := results[..|results| - 1];
      (set k | 0 <= k < |results| && "pod" in results[k].metric :: PodOf(results[k]))
      == (set k | 0 <= k < |init| && "pod" in init[k].metric :: PodOf(init[k])) + {PodOf(results[|results| - 1])}
  {
    var init := results[..|results| - 1];
    var pods := set k | 0 <= k < |results| && "pod" in results[k].metric :: PodOf(results[k]);
    var podsBefore := set k | 0 <= k < |init| && "pod" in init[k].metric :: PodOf(init[k]);
    forall p | p in pods ensures p in podsBefore + {PodOf(results[|results| - 1])} {
      var k :| 0 <= k < |results| && "pod" in results[k].metric && PodOf(results[k]) == p;
      if k < |init| {
        assert init[k] == results[k];
      }
    }
    forall p | p in podsBefore ensures p in pods {
      var k :| 0 <= k < |init| && "pod" in init[k].metric && PodOf(init[k]) == p;
      assert results[k] == init[k];
    }
  }

  /** Each pod's frame is the one of the LAST result naming it: a later
      result overwrites an earlier one. */
  lemma {:induction false} VectorSeriesLastWins(results: seq<SeriesResult>, k: nat)
    requires VectorSeriesOf(results).Ok? && k < |results|
    requires forall j :: 0 <= j < |results| ==> "pod" in results[j].metric
    requires forall j :: k < j < |results| ==> PodOf(results[j]) != PodOf(results[k])
    ensures PodOf(results[k]) in VectorSeriesOf(results).value
    ensures VectorSeriesOf(results).value[PodOf(results[k])] == results[k].values
  {
    var init := results[..|results| - 1];
    var last := results[|results| - 1];
    assert VectorSeriesOf(init).Ok?;
    var before := VectorSeriesOf(init).value;
    assert VectorSeriesOf(results).value == before[PodOf(last) := last.values];
    if k < |init| {
      assert PodOf(last) != PodOf(results[k]);
      assert init[k] == results[k];
      forall j | k < j < |init| ensures PodOf(init[j]) != PodOf(init[k]) {
        assert init[j] == results[j];
      }
      VectorSeriesLastWins(init, k);
    }
  }
}
