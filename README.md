# Load-model service workload engine, in Dafny

This project models the synthetic-workload engine of the `LoadFlaskDeploy`
service, together with the small string and row helpers of the analysis
notebooks and of the two example training-data readers.

A request to the load-model service picks two magnitudes:

- a latency `t`, drawn from a log-normal strategy;
- a memory size `m`, drawn from a truncated normal strategy.

Each magnitude is the configured mean when its spread is 0. Either one may be
pushed up by an outlier of `factor * sigma`. `Delay.load` then holds an int32
block of `int(1024*m/4)` elements while it does one of two things:

- sleeps `t` seconds (load factor 0);
- burns `int(t * load_calibration * 5000)` multiplications and reports the
  measured time.

The measured delay is recorded in the handler's payload data. `model_util.py`
adds the same building blocks in milliseconds:

- a unit of 15000 multiplications and a ten-trial calibration;
- clamped think-time delays;
- the constant, truncated-normal and log-normal sampling strategies.

The notebook helpers are:

- the Prometheus text-format metric builder;
- the fold of a query response into one series per pod;
- the reading back of pod id and metric type from saved file names;
- the pod-list reader;
- the collection of saved frames by metric type and pod, cut to a time window
  and bucketed by minute.

The readers turn `adult.names` lines into a header, and split CSV rows into
header and data.

Randomness, the clock and files are parameters:

- A numpy normal draw `N(mu, sigma)` is `mu + sigma * z` for the next value
  `z` of a given standard-normal stream. A rejection attempt with `size`
  consumes `size` entries and keeps the first, as
  `np.random.normal(..., size=size)[0]` does.
- A stream that runs out (`DrawsExhausted`) stands for a run that is still
  drawing. With a negative mean and no spread that run never ends.
- Log-normal variates, the uniform draws of `random.random()`, and the
  `time.time()` readings around each timed section are given as values.
- Files are given as their lines, or as their parsed rows.

Python floats are `real`. `int()` of a float truncates toward zero (`Trunc`).
Python exceptions are `Err` values: numpy's negative dimension, a negative
scale, a negative sleep length, KeyError, UnboundLocalError and NameError.

Behaviour worth knowing:

- The truncated normal sampler has no zero-spread bypass of its own. The
  bypass lives in `delayed_response`, and the sampler with `sigma == 0` and a
  negative mean never returns.
- The sampler accepts 0; only negative draws are redrawn.
- The busy loop runs `int(t * load_calibration * CALIBRATION_SCALE)` times.
  It does not divide by the calibration.
- `model_serve.calibrate(n)` averages `n` round times, and gives numpy's nan
  (here `None`) for `n <= 0`.

## Model

| member | source | states |
|---|---|---|
| `ModelUtil.LoadFunction` | LoadFlaskDeploy/model/model_util.py:10-18 | exactly `n * 15000` multiplications for `n > 0` (none otherwise); returns the elapsed ms of the two clock readings, `n` and 15000 unchanged |
| `ModelUtil.MemoryFunction` | LoadFlaskDeploy/model/model_util.py:21-28 | a block of `1024*1024*size` bytes; fails with the negative-dimension error exactly when `size < 0` |
| `ModelUtil.Calibrate` | LoadFlaskDeploy/model/model_util.py:31-40 | ten trials with 1, 11, ..., 91 units; all their multiplications are counted; the result is the mean of the per-unit ms `PerUnitTimes` |
| `ModelUtil.PerUnitTimes` | LoadFlaskDeploy/model/model_util.py:36-39 | one per-unit time per trial, ten in all |
| `ModelUtil.CalibrationWork` | LoadFlaskDeploy/model/model_util.py:36 | the ten trials run 460 units |
| `ModelUtil.CalibrationNonNegative` | LoadFlaskDeploy/model/model_util.py:36-40 | the calibration is ≥ 0 when no trial sees the clock go backwards |
| `Basics.MeanNonNegative` | LoadFlaskDeploy/model/model_util.py:40 | `np.average` of non-negative values is non-negative |
| `ModelUtil.Sleep` | LoadFlaskDeploy/model/model_util.py:54-59 | result is `max(dt, 0)` ≥ 0; an explicit non-negative `dt` is returned unchanged; the strategy's draw is used when no `dt` is given |
| `ModelUtil.SleepRemaining` | LoadFlaskDeploy/model/model_util.py:48-52 | `t0 + max(0, dt - t0)` equals `max(t0, dt)` and is never below `t0` |
| `ModelUtil.ConstantStrategy.Sample` | LoadFlaskDeploy/model/model_util.py:61-69 | the bare constant for size 1; otherwise `size` copies of it; a negative size fails, and only a negative size |
| `ModelUtil.NormalStrategy.Sample` | LoadFlaskDeploy/model/model_util.py:97-111 | the rejection loop computes `SampleOf`, the fold of first-accepted draws |
| `ModelUtil.NormalStrategy.FirstAcceptedIsFirstNonNegative` | LoadFlaskDeploy/model/model_util.py:102-104 | one rejection loop yields the first non-negative attempt: every attempt it skipped was negative |
| `ModelUtil.NormalStrategy.DrawsFromAreNonNegativeAttempts` | LoadFlaskDeploy/model/model_util.py:100-105 | the elements drawn are exactly the non-negative attempts, in draw order, and the last attempt made was accepted |
| `ModelUtil.NormalStrategy.SampleShape` | LoadFlaskDeploy/model/model_util.py:98-111 | a scalar for size 1, else exactly `size` elements; no draw for size ≤ 0; a negative sigma fails at the first draw |
| `ModelUtil.NormalStrategy.SampleNonNegative` | LoadFlaskDeploy/model/model_util.py:100-105 | no returned element is negative |
| `ModelUtil.NormalStrategy.SampleIsNonNegativeAttempts` | LoadFlaskDeploy/model/model_util.py:100-105 | the sample is the non-negative attempts of the consumed stream, in order; 0 is kept |
| `ModelUtil.NormalStrategy.NegativeMeanNoSpreadNeverReturns` | LoadFlaskDeploy/model/model_util.py:102-104 | with a negative mean and no spread no draw is ever accepted |
| `ModelUtil.NormalStrategy.NoSpreadReturnsMean` | LoadFlaskDeploy/model/model_util.py:100-107 | with no spread and a non-negative mean one draw returns the mean |
| `ModelUtil.NonNegAppend` | LoadFlaskDeploy/model/model_util.py:100-105 | keeping the non-negative draws of two stretches of attempts is keeping them in each, in order |
| `ModelUtil.LogNormalStrategy.Sample` | LoadFlaskDeploy/model/model_util.py:80-87 | the first variate for size 1, else the first `size` ones; a negative size fails |
| `ModelServe.Durations` | LoadFlaskDeploy/model/model_serve.py:68-74 | round `k` measures the clock difference around its multiplications |
| `ModelServe.Calibrate` | LoadFlaskDeploy/model/model_serve.py:64-75 | exactly `n` measurements of 5000 multiplications each, and their mean; nothing (nan) for `n ≤ 0` |
| `ModelServe.LogNormalDelayStrategy.Call` | LoadFlaskDeploy/model/model_serve.py:157-164 | the result has the requested shape, and is non-negative for positive variates |
| `ModelServe.NormalDelayStrategy.Call` | LoadFlaskDeploy/model/model_serve.py:174-188 | the same rejection sampler; only non-negative values, and `size` of them when `size != 1` |
| `ModelServe.WithOutlier` | LoadFlaskDeploy/model/model_serve.py:103-105 | adds exactly `factor * sigma` when the uniform draw is below `p`, and otherwise leaves the magnitude unchanged (the same at lines 110-112); for draws in [0, 1), `p ≤ 0` never perturbs and `p ≥ 1` always does |
| `ModelServe.LatencyBypass` | LoadFlaskDeploy/model/model_serve.py:99-105 | with `latency_sigma == 0` the latency is `latency_mu` exactly, no draw is made, and the outcome does not depend on the log-normal draws |
| `ModelServe.MemoryBypass` | LoadFlaskDeploy/model/model_serve.py:106-112 | with `memory_sigma == 0` the memory is `memory_mu` exactly, and no normal draw is consumed |
| `ModelServe.DrawnMemoryNonNegative` | LoadFlaskDeploy/model/model_serve.py:106-109 | a drawn memory magnitude without outlier is ≥ 0 |
| `ModelServe.ExactWithoutSpreadOrOutliers` | LoadFlaskDeploy/model/model_serve.py:99-112 | no spread and no outlier probability: the request gets exactly the configured means |
| `ModelServe.LoadOutcome` | LoadFlaskDeploy/model/model_serve.py:129-145 | the block has `int(1024*m/4)` elements and fails exactly when that is negative; load factor 0 sleeps and returns `t`; a negative `t` fails the sleep, and only then; otherwise `int(t*cal*5000)` iterations (0 when the calibration is 0) and the measured time |
| `ModelServe.Delay.Load` | LoadFlaskDeploy/model/model_serve.py:129-145 | allocates the block and runs the busy loop; the result is `LoadOutcome`; the block is a local, unreachable after return |
| `ModelServe.Delay.constructor` | LoadFlaskDeploy/model/model_serve.py:83-92 | keeps endpoint, configuration and keyword data, and builds both strategies from the configuration |
| `ModelServe.Delay.DelayedResponse` | LoadFlaskDeploy/model/model_serve.py:94-121 | the delay is the one `load` returns for the chosen magnitudes; `data` gains `endpoint` and `params` (with `delay`), keeps every other key, and is untouched when the request fails |
| `ModelServe.DelayedResponseAsWritten` | LoadFlaskDeploy/model/model_serve.py:103 | the module as it stands never answers: NameError on `random` |
| `ModelServe.MissingImportCounterexample` | LoadFlaskDeploy/model/model_serve.py:99-105 | a spread-free configuration with latency mean 1, load factor 1 and calibration 0 that the intended engine answers with delay 0, where the module as it stands raises |
| `ModelServe.MemoryDraw` | LoadFlaskDeploy/model/model_serve.py:106-109 | the memory magnitude before outliers: the mean without spread, else one truncated-normal draw; its contracts are `MemoryBypass` and `DrawnMemoryNonNegative` |
| `ModelServe.MagnitudesOf` | LoadFlaskDeploy/model/model_serve.py:99-112 | the latency and memory magnitudes of one request, outliers included; its contracts are `LatencyBypass`, `MemoryBypass`, `WithOutlier` and `ExactWithoutSpreadOrOutliers` |
| `ModelServe.ResponseDelay` | LoadFlaskDeploy/model/model_serve.py:94-113 | the delay `load` returns for the chosen magnitudes, or the exception that ends the request; `Delay.DelayedResponse` is proved to record it, and `MissingImportCounterexample` evaluates it |
| `Basics.Trunc` | LoadFlaskDeploy/model/model_serve.py:133 | `int()` of a float truncates toward zero |
| `Prometheus.BuildPlainMetric` | LoadFlaskDeploy/notebook_libs/prometheus.py:27-35 | the type line, a newline and the sample line; its contracts are `PlainMetricHead`, `PlainMetricTail`, `PlainMetricBare`, `MetricLines`, `SampleFields` and `LabelFields` |
| `Prometheus.PlainMetricHead` | LoadFlaskDeploy/notebook_libs/prometheus.py:27-31 | output starts with `# TYPE name type`, a newline and `name`; a `{` follows exactly when there are labels |
| `Prometheus.PlainMetricTail` | LoadFlaskDeploy/notebook_libs/prometheus.py:32-35 | the value follows one space; the timestamp follows another exactly when `at` is given |
| `Prometheus.PlainMetricBare` | LoadFlaskDeploy/notebook_libs/prometheus.py:27-35 | no labels and no `at`, default type: exactly `# TYPE n gauge\nn v` |
| `Prometheus.LabelBlock` | LoadFlaskDeploy/notebook_libs/prometheus.py:29-31 | empty exactly when there are no labels; otherwise the `k="v"` pairs in braces, joined by `,` |
| `Prometheus.LabelPairs` | LoadFlaskDeploy/notebook_libs/prometheus.py:30 | one `k="v"` per label, in the dictionary's order |
| `Prometheus.MetricLines` | LoadFlaskDeploy/notebook_libs/prometheus.py:27-35 | the metric splits into exactly the type line and the sample line |
| `Prometheus.SampleFields` | LoadFlaskDeploy/notebook_libs/prometheus.py:28-34 | the sample line splits into series, value, and the timestamp exactly when given; the timestamp reads back as `at` |
| `Prometheus.LabelFields` | LoadFlaskDeploy/notebook_libs/prometheus.py:29-31 | inside the braces, splitting at `,` gives the label pairs back, with no trailing piece |
| `PyStr.IntToStrRoundTrip` | LoadFlaskDeploy/notebook_libs/prometheus.py:34 | `str(at)` reads back as `at` |
| `Prometheus.VectorSeries` | LoadFlaskDeploy/notebook_libs/prometheus.py:18-25 | the loop computes the fold `VectorSeriesOf` |
| `Prometheus.ErrorPersists` | LoadFlaskDeploy/notebook_libs/prometheus.py:20-21 | once a result lacks `pod`, the whole call fails with that KeyError |
| `Prometheus.VectorSeriesFails` | LoadFlaskDeploy/notebook_libs/prometheus.py:20-21 | fails exactly when some result has no `pod` label, with KeyError `pod` |
| `Prometheus.VectorSeriesKeys` | LoadFlaskDeploy/notebook_libs/prometheus.py:19-25 | one entry per pod named in the results, no other |
| `Prometheus.VectorSeriesLastWins` | LoadFlaskDeploy/notebook_libs/prometheus.py:19-25 | each pod's series is that of the last result naming it |
| `Utilities.ExtractPodId` | LoadFlaskDeploy/notebook_libs/utilities.py:110-112 | the slice `fn[-39:-4]`; its contracts are `ExtractPodIdSlice` and `FileNameRoundTrip` |
| `Utilities.ExtractMetricType` | LoadFlaskDeploy/notebook_libs/utilities.py:115-122 | `"cpu"`, `"memory"` or None from the name's tail; its contracts are `ExtractMetricTypeCases` and `FileNameRoundTrip` |
| `Utilities.ExtractPodIdSlice` | LoadFlaskDeploy/notebook_libs/utilities.py:110-112 | `fn[-39:-4]`: 35 characters when `len(fn) ≥ 39`, clamped (possibly empty) otherwise |
| `PyStr.Slice` | LoadFlaskDeploy/notebook_libs/utilities.py:111 | Python slicing: both bounds clamped, negative ones counted from the end, empty when they cross |
| `Utilities.ExtractMetricTypeCases` | LoadFlaskDeploy/notebook_libs/utilities.py:115-122 | the tail is `fn[-43:-40]` (the three characters ending at the fortieth from the end); `"cpu"` exactly for tail `cpu`, `"memory"` exactly for tail `ory`, None otherwise |
| `Utilities.FileNameRoundTrip` | LoadFlaskDeploy/notebook_libs/utilities.py:96-99 | a name built as `persist_pod_dfs` builds it reads back as its pod id and metric type |
| `Utilities.ReadPodIdList` | LoadFlaskDeploy/notebook_libs/utilities.py:125-132 | the loop computes `PodIdsOf`, the stripped non-blank lines |
| `Utilities.PodIdsAreStripped` | LoadFlaskDeploy/notebook_libs/utilities.py:128-131 | every id is non-empty and has no surrounding whitespace |
| `Utilities.PodIdFromLine` | LoadFlaskDeploy/notebook_libs/utilities.py:127-131 | every id is the strip of some line |
| `Utilities.NonBlankLinesListed` | LoadFlaskDeploy/notebook_libs/utilities.py:127-131 | every non-blank line gives an id, placed right after the ids of the lines before it |
| `Utilities.PodIdsInFileOrder` | LoadFlaskDeploy/notebook_libs/utilities.py:127-131 | ids keep file order: the ids of two consecutive parts of a file are concatenated |
| `PyStr.StripIdempotent` | LoadFlaskDeploy/notebook_libs/utilities.py:128-131 | stripping twice is stripping once |
| `PyStr.StripRemovesOnlyEnds` | LoadFlaskDeploy/notebook_libs/utilities.py:128 | strip removes whitespace only, and only at the two ends |
| `Utilities.Window` | LoadFlaskDeploy/notebook_libs/utilities.py:148-151 | the rows of a frame inside the optional bounds, in order; never more rows than the frame; its contract is `WindowKeepsExactly` |
| `Utilities.WindowKeepsExactly` | LoadFlaskDeploy/notebook_libs/utilities.py:148-151 | a row stays exactly when `tmin ≤ timestamp ≤ tmax`, both inclusive and each optional |
| `Utilities.MinuteBucket` | LoadFlaskDeploy/notebook_libs/utilities.py:152 | `60*int(x/60.)` with `int` truncating; its contract is `MinuteBucketBounds` |
| `Utilities.MinuteBucketBounds` | LoadFlaskDeploy/notebook_libs/utilities.py:152 | the bucket is a multiple of 60 with `x - 60 < bucket ≤ x` for `x ≥ 0` (and `x ≤ bucket < x + 60` below 0); the same expression is used at line 165 |
| `Utilities.Bucketed` | LoadFlaskDeploy/notebook_libs/utilities.py:152 | each row keeps its value, its timestamp replaced by the minute bucket |
| `Utilities.ReadPodDfList` | LoadFlaskDeploy/notebook_libs/utilities.py:135-158 | the loop computes `PodDfsOf`, the fold of `AddEntry` over the entries (metric type, pod id, windowed and bucketed rows) of the matched files in glob order |
| `Utilities.AddEntryEffect` | LoadFlaskDeploy/notebook_libs/utilities.py:140-155 | one file adds its metric type as a key, and at most its own pod's frame |
| `Utilities.AddEntryKeeps` | LoadFlaskDeploy/notebook_libs/utilities.py:143-155 | a file leaves every other (type, pod) frame unchanged |
| `Utilities.PodDfsTypes` | LoadFlaskDeploy/notebook_libs/utilities.py:140-144 | the keys are exactly the metric types of the matched files, including files whose pod is rejected |
| `Utilities.PodDfsFrames` | LoadFlaskDeploy/notebook_libs/utilities.py:145-155 | inner maps only hold listed pods; each frame is a matching file's rows, windowed and bucketed |
| `Utilities.PodDfsLastFileWins` | LoadFlaskDeploy/notebook_libs/utilities.py:155 | a listed pod's frame comes from the last file naming that type and pod |
| `Utilities.FrameRowsInWindow` | LoadFlaskDeploy/notebook_libs/utilities.py:148-152 | every row of a frame is an in-window row of the file, at the start of its minute |
| `SimpleTrainingData.GetHeader` | SimpleFlaskDeploy/model/training_data.py:4-13 | the names of the kept lines, in order, then `"class"`; so it always ends with `"class"` |
| `SimpleTrainingData.ColumnNames` | SimpleFlaskDeploy/model/training_data.py:7-11 | no more names than lines |
| `SimpleTrainingData.ColumnNamesOfOneLine` | SimpleFlaskDeploy/model/training_data.py:8-11 | a line starting with `\|`, `>` or a newline adds nothing; any other line adds its name |
| `SimpleTrainingData.ColumnNamesInOrder` | SimpleFlaskDeploy/model/training_data.py:7-11 | the names of two consecutive parts of the file are concatenated, so input order is kept |
| `SimpleTrainingData.HeaderLength` | SimpleFlaskDeploy/model/training_data.py:7-12 | one name per kept line (the header adds `"class"` to these) |
| `SimpleTrainingData.AllSkippedGivesClassOnly` | SimpleFlaskDeploy/model/training_data.py:8-13 | no kept line (e.g. an empty file) gives just `["class"]` |
| `SimpleTrainingData.ColumnNameIsTextAfterLastColon` | SimpleFlaskDeploy/model/training_data.py:11 | `line.split(":")[-1]` is the text after the last colon, or the whole line; newline kept; no colon in it |
| `PyStr.SplitLast` | SimpleFlaskDeploy/model/training_data.py:11 | the last piece of a split is the suffix after the last separator |
| `PyStr.SplitJoin` | SimpleFlaskDeploy/model/training_data.py:11 | splitting a join of separator-free pieces gives the pieces back |
| `TimeseriesTrainingData.GetTrainingData` | TimeseriesFlaskDeploy/model/training_data.py:10-22 | the header is the first row and the data the rest, in order (`[header] + data == rows`); `first` once false stays false; empty input raises UnboundLocalError |

## Left out

- Flask routes, response construction (`json.dumps`, headers) and logging setup: HTTP plumbing outside the engine.
- `NumpyArrayEncoder`: a dispatch on numpy types that are not part of this model.
- The module-level `load(n, delay)` and `memory(size)` helpers of `model_serve.py` (lines 51-58): the engine never calls them.
- The log-normal parameter transform (`log`/`sqrt` of the mean and spread), and the ZeroDivisionError it raises when the mean is 0. Only the shape of a log-normal sample is modelled; its distribution is statistical.
- `np.random.seed` in the strategy constructors: there is no global random state in the model, and every draw is a parameter.
- `ModelUtil.NormalStrategy.Sample`: a run that never accepts is modelled as `DrawsExhausted` once the given stream ends. The non-termination itself is not a value.
- `ModelServe.LoadOutcome`: real arithmetic. Float rounding in `1024*m/4` and `t * cal * 5000` is not modelled.
- `ModelServe.Delay.Load`: `time.sleep` and the memory the block occupies are not modelled. The sleep is its length, the block is an array local to the call, and `del block` is the end of that call.
- The float conversions (`float(...)`) of sampled values, and the text Python prints for a float: the metric builder takes the value already rendered, as `valueText`.
- The pandas frames: `prometheus_vector_series` keeps `(timestamp, value)` rows, with the conversion of Prometheus' string values to floats left out. Its debug `print` is left out too.
- Lookups of `response["data"]["result"]`: the model starts from the result list.
- `read_pod_df_list`: the glob, file opening, CSV parsing, `set_index` and the drop of the `Unnamed: 0` column are left out, and so are its warnings. The frames are given as rows parallel to the file names.
- `persist_pod_dfs`: directory creation, the UTC clock and CSV writing are left out. Only the file name it builds is modelled.
- `query_prometheus`, the HTTP clients, `persist_prometheus.py`, the `__main__` demo of `model_util.py` with its resident-memory readings, and the pandas and plotting work in `utilities.py` are left out.
- `read_client_requests` is left out apart from its minute-bucket expression.
- `get_training_data`: CSV parsing and the final `np.array(data)` conversion are left out. Rows come in parsed and are returned as a sequence.
- `TimeseriesTrainingData.GetTrainingData`: the ValueError that `np.array(data)` raises on rows of different lengths (a blank CSV line reads as an empty row) is not modelled; only the UnboundLocalError of empty input is.
- `extract_metric_type`: the warning it prints for a name of neither type is left out; the result is None as in the code.
- `ModelServe.Delay.constructor`: the ZeroDivisionError that building `LogNormalDelayStrategy` raises for `latency_mu == 0` is not modelled; the constructor requires nothing of the mean.
- `get_header`: file opening is left out; the lines come with their terminators.

## Findings

| source | as written | input that shows it | evidently intended | confidence | as-written member | corrected member |
|---|---|---|---|---|---|---|
| LoadFlaskDeploy/model/model_serve.py:103 | `random.random()` is called, but the module never imports `random`. Every call of `delayed_response` raises NameError once the latency is chosen, before any load runs. | any configuration with latency_mu ≠ 0, e.g. latency mean 1, load factor 1 and every other number 0 | a uniform draw in [0, 1) from Python's `random` module decides the outlier | not executed; high (no `import random` in the module) | `ModelServe.DelayedResponseAsWritten` | `ModelServe.Delay.DelayedResponse` |
