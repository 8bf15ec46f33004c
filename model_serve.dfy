/** The request engine of the load-model service: per request, a latency
    magnitude `t` and a memory magnitude `m` are chosen (fixed when their
    spread is 0, drawn otherwise, then perhaps pushed up by an outlier), and
    `Delay.load` holds a memory block of about `m` KB while it either sleeps
    `t` seconds or burns a calibrated number of multiplications.

    The log-normal latency draws, the standard-normal stream behind the
    memory draws, the two uniform draws of `random.random()` and the clock
    readings are parameters. */
module ModelServe {
  import opened Basics
  import opened ModelUtil

  /** Multiplications per calibration measurement and per unit of load. */
  const CALIBRATION_SCALE: nat := 5000

  /** The JSON values the response payload is built from. */
  datatype Json =
    | JNull
    | JBool(b: bool)
    | JNum(n: real)
    | JStr(s: string)
    | JArr(items: seq<Json>)
    | JObj(fields: map<string, Json>)

  /** The service configuration the engine reads; `latencyParams`,
      `memoryParams` and `loadParams` are what `conf.mc(name)` returns for
      "latency", "memory" and "load". */
  datatype Conf = Conf(
    latencyMu: real, latencySigma: real,
    latencyOutlierProbability: real, latencyOutlierFactor: real,
    memoryMu: real, memorySigma: real,
    memoryOutlierProbability: real, memoryOutlierFactor: real,
    loadFactor: real, loadCalibration: real,
    latencyParams: Json, memoryParams: Json, loadParams: Json)

  // ---------------------------------------------------------------------
  // Calibration

  /** The seconds measured by the first `n` calibration rounds; round `k`
      reads the clock at `clock[2k]` and `clock[2k + 1]`. */
  function Durations(clock: seq<real>, n: nat): (d: seq<real>)
    requires 2 * n <= |clock|
    ensures |d| == n
    ensures forall k :: 0 <= k < n ==> d[k] == clock[2 * k + 1] - clock[2 * k]
  {
    if n == 0 then [] else Durations(clock, n - 1) + [clock[2 * n - 1] - clock[2 * n - 2]]
  }

  /** `calibrate(n)`: `n` timed rounds of `CALIBRATION_SCALE` multiplications;
      the average round time, or no number at all (numpy's nan) when `n <= 0`. */
  method Calibrate(n: int, clock: seq<real>) returns (avg: Option<real>, data: seq<real>, products: nat)
    requires 2 * n <= |clock|
    ensures n <= 0 ==> avg == None && data == [] && products == 0
    ensures 0 < n ==> data == Durations(clock, n) && avg == Some(Mean(data))
    ensures 0 < n ==> products == n * CALIBRATION_SCALE
  {
    data, products := [], 0;
    var i := 0;
    while i < n
      invariant 0 <= i && (if 0 <= n then i <= n else i == 0)
      invariant data == Durations(clock, i)
      invariant products == i * CALIBRATION_SCALE
    {
      var startTime := clock[2 * i];
      var j := 0;
      while j < CALIBRATION_SCALE
        invariant 0 <= j <= CALIBRATION_SCALE
        invariant products == i * CALIBRATION_SCALE + j
      {
        var square := 11 * 11;
        products := products + 1;
        j := j + 1;
      }
      data := data + [clock[2 * i + 1] - startTime];
      i := i + 1;
    }
    avg := if data == [] then None else Some(Mean(data));
  }

  // ---------------------------------------------------------------------
  // Strategies

  datatype LogNormalDelayStrategy = LogNormalDelayStrategy(mu: real, sigma: real)
  {
    /** `LogNormalDelayStrategy(size)`, on the log-normal variates `draws`. */
    function Call(size: int, draws: seq<real>): (r: Result<Drawn, PyError>)
      ensures r.Ok? ==> HasShape(r.value.sample, size)
      ensures (forall k :: 0 <= k < |draws| ==> 0.0 < draws[k]) && r.Ok? ==> NonNegative(r.value.sample)
    {
      LogNormalStrategy(mu, sigma).Sample(size, draws)
    }
  }

  datatype NormalDelayStrategy = NormalDelayStrategy(mu: real, sigma: real)
  {
    /** `NormalDelayStrategy(size)`: the truncated-normal rejection sampler. */
    method Call(size: int, z: seq<real>) returns (r: Result<Drawn, PyError>)
      ensures r == NormalStrategy(mu, sigma).SampleOf(size, z)
      ensures r.Ok? ==> NonNegative(r.value.sample) && HasShape(r.value.sample, size)
    {
      r := NormalStrategy(mu, sigma).Sample(size, z);
      NormalStrategy(mu, sigma).SampleShape(size, z);
      if r.Ok? {
        NormalStrategy(mu, sigma).SampleNonNegative(size, z);
      }
    }
  }

  // ---------------------------------------------------------------------
  // Magnitudes

  /** The outlier injector: when the uniform draw `u` falls below `p`, the
      magnitude grows by `factor * sigma`; otherwise it is unchanged. */
  function WithOutlier(x: real, u: real, p: real, factor: real, sigma: real): (r: real)
    ensures r == x || r == x + factor * sigma
    ensures u < p ==> r - x == factor * sigma
    ensures p <= u ==> r == x
    ensures 0.0 <= u < 1.0 && p <= 0.0 ==> r == x
    ensures 0.0 <= u < 1.0 && 1.0 <= p ==> r == x + factor * sigma
  {
    if u < p then x + factor * sigma else x
  }

  /** The number a default (size 1) strategy call returns, and the stream
      entries it used. */
  function ScalarOf(r: Result<Drawn, PyError>): Result<(real, nat), PyError>
    requires r.Ok? ==> r.value.sample.Scalar?
  {
    match r
    case Err(e) => Err(e)
    case Ok(d) => Ok((d.sample.value, d.used))
  }

  /** The memory magnitude before any outlier: the mean when there is no
      spread (no draw is made), else one truncated-normal draw. */
  function MemoryDraw(conf: Conf, normals: seq<real>): Result<(real, nat), PyError>
  {
    if conf.memorySigma == 0.0 then Ok((conf.memoryMu, 0))
    else
      var strategy := NormalStrategy(conf.memoryMu, conf.memorySigma);
      strategy.SampleShape(1, normals);
      ScalarOf(strategy.SampleOf(1, normals))
  }

  /** The latency magnitude `t`, the memory magnitude `m`, and how many
      log-normal and standard-normal draws choosing them took. */
  datatype Magnitudes = Magnitudes(t: real, m: real, logNormalsUsed: nat, normalsUsed: nat)

  /** Lines 99-112 of `delayed_response`: each magnitude is its mean when its
      spread is 0 (no draw is made) and one draw otherwise, then goes through
      the outlier injector. */
  function MagnitudesOf(conf: Conf, logNormals: seq<real>, normals: seq<real>, u1: real, u2: real)
    : (r: Result<Magnitudes, PyError>)
  {
    var latency :=
      if conf.latencySigma == 0.0 then Ok((conf.latencyMu, 0))
      else ScalarOf(LogNormalDelayStrategy(conf.latencyMu, conf.latencySigma).Call(1, logNormals));
    var memory := MemoryDraw(conf, normals);
    if latency.Err? then Err(latency.error)
    else if memory.Err? then Err(memory.error)
    else
      var t := WithOutlier(latency.value.0, u1, conf.latencyOutlierProbability,
                           conf.latencyOutlierFactor, conf.latencySigma);
      var m := WithOutlier(memory.value.0, u2, conf.memoryOutlierProbability,
                           conf.memoryOutlierFactor, conf.memorySigma);
      Ok(Magnitudes(t, m, latency.value.1, memory.value.1))
  }

  /** With no latency spread the latency is its mean whatever the log-normal
      draws are, none of them is consumed, and an outlier (a shift of
      `factor * sigma`) changes nothing. */
  lemma LatencyBypass(conf: Conf, d1: seq<real>, d2: seq<real>, normals: seq<real>, u1: real, u2: real)
    requires conf.latencySigma == 0.0
    ensures MagnitudesOf(conf, d1, normals, u1, u2) == MagnitudesOf(conf, d2, normals, u1, u2)
    ensures MagnitudesOf(conf, d1, normals, u1, u2).Ok? ==>
      var mg := MagnitudesOf(conf, d1, normals, u1, u2).value;
      mg.logNormalsUsed == 0 && mg.t == conf.latencyMu
  {
  }

  /** With no memory spread the memory magnitude is its mean whatever the
      normal stream is, none of it is consumed, and an outlier changes nothing. */
  lemma MemoryBypass(conf: Conf, logNormals: seq<real>, z1: seq<real>, z2: seq<real>, u1: real, u2: real)
    requires conf.memorySigma == 0.0
    ensures MagnitudesOf(conf, logNormals, z1, u1, u2) == MagnitudesOf(conf, logNormals, z2, u1, u2)
    ensures MagnitudesOf(conf, logNormals, z1, u1, u2).Ok? ==>
      var mg := MagnitudesOf(conf, logNormals, z1, u1, u2).value;
      mg.normalsUsed == 0 && mg.m == conf.memoryMu
  {
  }

  /** A drawn memory magnitude is never negative before the outlier shift. */
  lemma DrawnMemoryNonNegative(conf: Conf, logNormals: seq<real>, normals: seq<real>, u1: real, u2: real)
    requires conf.memorySigma != 0.0
    requires MagnitudesOf(conf, logNormals, normals, u1, u2).Ok?
    requires conf.memoryOutlierProbability <= u2
    ensures 0.0 <= MagnitudesOf(conf, logNormals, normals, u1, u2).value.m
  {
    NormalStrategy(conf.memoryMu, conf.memorySigma).SampleNonNegative(1, normals);
  }

  /** No spread and no outliers: the request gets exactly the configured means. */
  lemma ExactWithoutSpreadOrOutliers(conf: Conf, logNormals: seq<real>, normals: seq<real>, u1: real, u2: real)
    requires conf.latencySigma == 0.0 && conf.memorySigma == 0.0
    requires conf.latencyOutlierProbability <= 0.0 && conf.memoryOutlierProbability <= 0.0
    requires 0.0 <= u1 < 1.0 && 0.0 <= u2 < 1.0
    ensures MagnitudesOf(conf, logNormals, normals, u1, u2) == Ok(Magnitudes(conf.latencyMu, conf.memoryMu, 0, 0))
  {
  }

  // ---------------------------------------------------------------------
  // Load

  /** What one `Delay.load` call did: the value it returns, the int32
      elements of its memory block, the multiplications it ran and the
      seconds it slept. */
  datatype LoadRun = LoadRun(at: real, blockInts: nat, iterations: nat, sleptSeconds: real)

  /** `Delay.load(t, m)` for a configuration: a block of `int(1024*m/4)`
      int32 values, then either a sleep of `t` seconds (load factor 0) or
      `int(t * load_calibration * CALIBRATION_SCALE)` multiplications timed by
      the clock readings `startTime` and `endTime`. */
  function LoadOutcome(conf: Conf, t: real, m: real, startTime: real, endTime: real)
    : (r: Result<LoadRun, PyError>)
    ensures r == Err(NegativeDimensions) <==> 1024.0 * m / 4.0 <= -1.0
    ensures r.Ok? ==> var run := r.value;
      && (0.0 <= m ==> (4 * run.blockInts) as real <= 1024.0 * m < (4 * run.blockInts + 4) as real)
      && (m < 0.0 ==> run.blockInts == 0)
    ensures r.Ok? && conf.loadFactor == 0.0 ==>
      r.value.at == t && r.value.sleptSeconds == t && r.value.iterations == 0
    ensures r == Err(NegativeSleepLength) <==> -1.0 < 1024.0 * m / 4.0 && conf.loadFactor == 0.0 && t < 0.0
    ensures r.Ok? && conf.loadFactor != 0.0 ==>
      && r.value.at == endTime - startTime && r.value.sleptSeconds == 0.0
      && r.value.iterations as real <= Max(0.0, t * conf.loadCalibration * CALIBRATION_SCALE as real)
      && Max(0.0, t * conf.loadCalibration * CALIBRATION_SCALE as real) < r.value.iterations as real + 1.0
    ensures r.Ok? && conf.loadCalibration == 0.0 ==> r.value.iterations == 0
  {
    var blockLen := Trunc(1024.0 * m / 4.0);
    if blockLen < 0 then Err(NegativeDimensions)
    else if conf.loadFactor == 0.0 then
      if t < 0.0 then Err(NegativeSleepLength) else Ok(LoadRun(t, blockLen, 0, t))
    else
      var n := Trunc(t * conf.loadCalibration * CALIBRATION_SCALE as real);
      Ok(LoadRun(endTime - startTime, blockLen, if n < 0 then 0 else n, 0.0))
  }

  /** The `params` object of the response: the three configuration groups and
      the measured delay. */
  function ParamsJson(conf: Conf, at: real): Json
  {
    JObj(map["latency" := conf.latencyParams, "memory" := conf.memoryParams,
             "load" := conf.loadParams, "delay" := JNum(at)])
  }

  /** What `delayed_response` computes: the delay `load` returns for the
      chosen magnitudes, or the exception that ends the request. */
  function ResponseDelay(conf: Conf, logNormals: seq<real>, normals: seq<real>, u1: real, u2: real,
                         startTime: real, endTime: real): Result<real, PyError>
  {
    match MagnitudesOf(conf, logNormals, normals, u1, u2)
    case Err(e) => Err(e)
    case Ok(mg) =>
      match LoadOutcome(conf, mg.t, mg.m, startTime, endTime)
      case Err(e) => Err(e)
      case Ok(run) => Ok(run.at)
  }

  /** `delayed_response` as the module stands: `random` is used at the
      outlier test but never imported, so once the latency is chosen the
      request ends in NameError. */
  function DelayedResponseAsWritten(conf: Conf, logNormals: seq<real>): (r: Result<real, PyError>)
    ensures r.Err?
    ensures conf.latencySigma == 0.0 ==> r == Err(UndefinedName("random"))
  {
    var latency :=
      if conf.latencySigma == 0.0 then Ok((conf.latencyMu, 0))
      else ScalarOf(LogNormalDelayStrategy(conf.latencyMu, conf.latencySigma).Call(1, logNormals));
    if latency.Err? then Err(latency.error) else Err(UndefinedName("random"))
  }

  /** A spread-free configuration with latency mean 1 (so the log-normal
      strategy of the constructor can be built), load factor 1 and
      calibration 0: the intended engine runs an empty busy loop and answers
      with the measured delay 0, the module as it stands raises. */
  lemma MissingImportCounterexample()
    ensures var conf := Conf(1.0, 0.0, 0.0, 0.0, 0.0, 0.0, 0.0, 0.0, 1.0, 0.0, JNull, JNull, JNull);
      && ResponseDelay(conf, [], [], 0.5, 0.5, 0.0, 0.0) == Ok(0.0)
      && DelayedResponseAsWritten(conf, []) == Err(UndefinedName("random"))
  {
    var conf := Conf(1.0, 0.0, 0.0, 0.0, 0.0, 0.0, 0.0, 0.0, 1.0, 0.0, JNull, JNull, JNull);
    assert MagnitudesOf(conf, [], [], 0.5, 0.5) == Ok(Magnitudes(1.0, 0.0, 0, 0));
    assert Trunc(1024.0 * 0.0 / 4.0) == 0;
    assert Trunc(1.0 * 0.0 * CALIBRATION_SCALE as real) == 0;
  }

  class Delay {
    const endpoint: string
    const conf: Conf
    const delayStrategy: LogNormalDelayStrategy
    const memoryStrategy: NormalDelayStrategy
    /** The keyword data the response payload is built from. */
    var data: map<string, Json>

    /** Both strategies are built from the configuration. */
    ghost predicate Valid()
    {
      && delayStrategy == LogNormalDelayStrategy(conf.latencyMu, conf.latencySigma)
      && memoryStrategy == NormalDelayStrategy(conf.memoryMu, conf.memorySigma)
    }

    constructor (endpoint: string, conf: Conf, kwargs: map<string, Json>)
      ensures Valid()
      ensures this.endpoint == endpoint && this.conf == conf && data == kwargs
    {
      this.endpoint := endpoint;
      this.conf := conf;
      this.data := kwargs;
      this.delayStrategy := LogNormalDelayStrategy(conf.latencyMu, conf.latencySigma);
      this.memoryStrategy := NormalDelayStrategy(conf.memoryMu, conf.memorySigma);
    }

    /** `Delay.load(t, m)`. The block is local: no reference to it survives the
        call, on either path. */
    method Load(t: real, m: real, startTime: real, endTime: real) returns (r: Result<LoadRun, PyError>)
      ensures r == LoadOutcome(conf, t, m, startTime, endTime)
    {
      var blockLen := Trunc(1024.0 * m / 4.0);
      if blockLen < 0 {
        return Err(NegativeDimensions);
      }
      var block := new int[blockLen](_ => 1);
      var at := t;
      var iterations := 0;
      var slept := 0.0;
      if conf.loadFactor == 0.0 {
        if t < 0.0 {
          return Err(NegativeSleepLength);
        }
        slept := t;
      } else {
        var n := Trunc(t * conf.loadCalibration * CALIBRATION_SCALE as real);
        var j := 0;
        while j < n
          invariant 0 <= j && (if 0 <= n then j <= n else j == 0)
          invariant iterations == j
        {
          var square := 11 * 11;
          iterations := iterations + 1;
          j := j + 1;
        }
        at := endTime - startTime;
        assert LoadOutcome(conf, t, m, startTime, endTime).value.iterations == iterations;
      }
      r := Ok(LoadRun(at, block.Length, iterations, slept));
    }

    /** `Delay.delayed_response()`: choose the magnitudes, run `load`, and
        record the endpoint and the parameters with the measured delay in
        `data`, keeping every other key. A request that raises leaves `data`
        as it was. */
    method DelayedResponse(logNormals: seq<real>, normals: seq<real>, u1: real, u2: real,
                           startTime: real, endTime: real) returns (r: Result<real, PyError>)
      requires Valid()
      modifies this
      ensures r == ResponseDelay(conf, logNormals, normals, u1, u2, startTime, endTime)
      ensures r.Ok? ==> data == old(data)["endpoint" := JStr(endpoint)]["params" := ParamsJson(conf, r.value)]
      ensures r.Ok? ==> forall k :: k in old(data) && k != "endpoint" && k != "params" ==>
        k in data && data[k] == old(data)[k]
      ensures r.Err? ==> data == old(data)
    {
      var t: real;
      var m: real;
      ghost var latencyUsed: nat, memoryUsed: nat := 0, 0;
      if conf.latencySigma == 0.0 {
        t := conf.latencyMu;
      } else {
        var d := delayStrategy.Call(1, logNormals);
        if d.Err? {
          return Err(d.error);
        }
        t, latencyUsed := d.value.sample.value, d.value.used;
        assert ScalarOf(LogNormalDelayStrategy(conf.latencyMu, conf.latencySigma).Call(1, logNormals))
            == Ok((t, latencyUsed));
      }
      ghost var tBase := t;
      if u1 < conf.latencyOutlierProbability {
        t := t + conf.latencyOutlierFactor * conf.latencySigma;
      }
      if conf.memorySigma == 0.0 {
        m := conf.memoryMu;
      } else {
        var d := memoryStrategy.Call(1, normals);
        if d.Err? {
          assert MemoryDraw(conf, normals) == Err(d.error);
          return Err(d.error);
        }
        m, memoryUsed := d.value.sample.value, d.value.used;
        assert MemoryDraw(conf, normals) == Ok((m, memoryUsed));
      }
      ghost var mBase := m;
      if u2 < conf.memoryOutlierProbability {
        m := m + conf.memoryOutlierFactor * conf.memorySigma;
      }
      assert t == WithOutlier(tBase, u1, conf.latencyOutlierProbability, conf.latencyOutlierFactor, conf.latencySigma);
      assert m == WithOutlier(mBase, u2, conf.memoryOutlierProbability, conf.memoryOutlierFactor, conf.memorySigma);
      assert MagnitudesOf(conf, logNormals, normals, u1, u2) == Ok(Magnitudes(t, m, latencyUsed, memoryUsed));
      var run := Load(t, m, startTime, endTime);
      if run.Err? {
        return Err(run.error);
      }
      var at := run.value.at;
      data := data["endpoint" := JStr(endpoint)]["params" := ParamsJson(conf, at)];
      r := Ok(at);
    }
  }
}
