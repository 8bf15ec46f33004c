/** The workload primitives of the load-model service: CPU load in calibrated
    units, memory blocks, the per-host calibration, think-time delays and the
    three sampling strategies (constant, truncated normal, log-normal).

    Randomness and the clock are parameters. A numpy normal draw N(mu, sigma)
    is `mu + sigma * z` for the next standard-normal value `z` of a stream;
    a draw stream that runs out stands for a run that has not finished yet. */
module ModelUtil {
  import opened Basics

  const CONST_FLOAT: real := 0.346723846287346
  /** Multiplications in one load unit. */
  const LOAD_CALIBRATION_SCALE: nat := 15000

  // ---------------------------------------------------------------------
  // CPU and memory load

  /** `load_function(n)`: `n` units of `LOAD_CALIBRATION_SCALE` multiplications
      each, timed by the two clock readings around them. Returns the elapsed
      milliseconds, `n`, the scale, and the number of multiplications done. */
  method LoadFunction(n: int, startTime: real, endTime: real)
    returns (elapsedMs: real, units: int, scale: nat, products: nat)
    ensures elapsedMs == 1000.0 * (endTime - startTime)
    ensures units == n && scale == LOAD_CALIBRATION_SCALE
    ensures products == if n > 0 then n * LOAD_CALIBRATION_SCALE else 0
  {
    products := 0;
    var i := 0;
    while i < n
      invariant 0 <= i && (if 0 < n then i <= n else i == 0)
      invariant products == i * LOAD_CALIBRATION_SCALE
    {
      var j := 0;
      while j < LOAD_CALIBRATION_SCALE
        invariant 0 <= j <= LOAD_CALIBRATION_SCALE
        invariant products == i * LOAD_CALIBRATION_SCALE + j
      {
        var product := CONST_FLOAT * CONST_FLOAT;
        products := products + 1;
        j := j + 1;
      }
      i := i + 1;
    }
    elapsedMs, units, scale := 1000.0 * (endTime - startTime), n, LOAD_CALIBRATION_SCALE;
  }

  /** `memory_function(size)`: a 1024 x 1024 x size block of bytes (1 MiB per
      unit); numpy refuses a negative dimension. The result is the block's size. */
  function MemoryFunction(size: int): (bytes: Result<nat, PyError>)
    ensures size < 0 <==> bytes == Err(NegativeDimensions)
    ensures 0 <= size ==> bytes == Ok(size * 1048576)
  {
    if size < 0 then Err(NegativeDimensions) else Ok(1024 * 1024 * size)
  }

  // ---------------------------------------------------------------------
  // Calibration

  const CALIBRATION_TRIALS: nat := 10

  /** Unit count of trial `k` of `range(1, 100, 10)`: 1, 11, ..., 91. */
  function TrialUnits(k: nat): (u: nat)
    ensures u >= 1
  {
    1 + 10 * k
  }

  /** Units run by the first `k` trials. */
  function UnitsUpTo(k: nat): nat
  {
    if k == 0 then 0 else UnitsUpTo(k - 1) + TrialUnits(k - 1)
  }

  /** Milliseconds per unit measured by each trial; trial `k` reads the clock
      at `clock[2k]` before and `clock[2k + 1]` after its load. */
  function PerUnitTimes(clock: seq<real>): (times: seq<real>)
    requires |clock| == 2 * CALIBRATION_TRIALS
    ensures |times| == CALIBRATION_TRIALS
  {
    seq(CALIBRATION_TRIALS, k requires 0 <= k < CALIBRATION_TRIALS =>
      1000.0 * (clock[2 * k + 1] - clock[2 * k]) / TrialUnits(k) as real)
  }

  /** What trial `k` adds to the measurements and to the work done. */
  lemma CalibrationStep(clock: seq<real>, k: nat, data: seq<real>, dt: real, products: nat, p: nat)
    requires |clock| == 2 * CALIBRATION_TRIALS && k < CALIBRATION_TRIALS
    requires data == PerUnitTimes(clock)[..k] && dt == 1000.0 * (clock[2 * k + 1] - clock[2 * k])
    requires products == UnitsUpTo(k) * LOAD_CALIBRATION_SCALE && p == TrialUnits(k) * LOAD_CALIBRATION_SCALE
    ensures data + [dt / TrialUnits(k) as real] == PerUnitTimes(clock)[..k + 1]
    ensures products + p == UnitsUpTo(k + 1) * LOAD_CALIBRATION_SCALE
  {
    var times := PerUnitTimes(clock);
    assert times[..k + 1] == times[..k] + [times[k]];
  }

  /** `calibrate()`: ten timed trials of 1, 11, ..., 91 units; the result is
      the mean of the per-unit times, in milliseconds. */
  method Calibrate(clock: seq<real>) returns (msPerUnit: real, units: seq<int>, products: nat)
    requires |clock| == 2 * CALIBRATION_TRIALS
    ensures |units| == CALIBRATION_TRIALS
    ensures forall k :: 0 <= k < CALIBRATION_TRIALS ==> units[k] == TrialUnits(k)
    ensures products == UnitsUpTo(CALIBRATION_TRIALS) * LOAD_CALIBRATION_SCALE
    ensures msPerUnit == Mean(PerUnitTimes(clock))
  {
    var data: seq<real> := [];
    units, products := [], 0;
    var i, k := 1, 0;
    while i < 100
      invariant 0 <= k <= CALIBRATION_TRIALS && i == TrialUnits(k)
      invariant data == PerUnitTimes(clock)[..k]
      invariant |units| == k && forall j :: 0 <= j < k ==> units[j] == TrialUnits(j)
      invariant products == UnitsUpTo(k) * LOAD_CALIBRATION_SCALE
    {
      var dt, n, cal, p := LoadFunction(i, clock[2 * k], clock[2 * k + 1]);
      CalibrationStep(clock, k, data, dt, products, p);
      data := data + [dt / i as real];
      units := units + [n];
      products := products + p;
      i, k := i + 10, k + 1;
    }
    assert data == PerUnitTimes(clock);
    msPerUnit := Mean(data);
  }

  /** Ten trials run 460 units in all. */
  lemma CalibrationWork()
    ensures UnitsUpTo(CALIBRATION_TRIALS) == 460
  {
  }

  /** When no trial sees the clock go backwards, the calibration is non-negative. */
  lemma CalibrationNonNegative(clock: seq<real>)
    requires |clock| == 2 * CALIBRATION_TRIALS
    requires forall k :: 0 <= k < CALIBRATION_TRIALS ==> clock[2 * k] <= clock[2 * k + 1]
    ensures 0.0 <= Mean(PerUnitTimes(clock))
  {
    var times := PerUnitTimes(clock);
    forall k | 0 <= k < |times| ensures 0.0 <= times[k] {
      assert clock[2 * k] <= clock[2 * k + 1];
    }
    MeanNonNegative(times);
  }

  // ---------------------------------------------------------------------
  // Think-time delays

  /** `DelayWithStrategy.sleep(dt)`: the delay is `dt`, or the strategy's draw
      `drawn` when no `dt` is given, clamped at 0; the call blocks for that many
      milliseconds and returns it. */
  function Sleep(dt: Option<real>, drawn: real): (slept: real)
    ensures 0.0 <= slept
    ensures dt.Some? && 0.0 <= dt.value ==> slept == dt.value
    ensures dt.Some? && dt.value < 0.0 ==> slept == 0.0
    ensures dt.None? ==> slept == Max(drawn, 0.0)
  {
    var d := if dt.Some? then dt.value else drawn;
    Max(d, 0.0)
  }

  /** `DelayWithStrategy.sleep_remaining(t0, dt)`: sleeps only for what is left
      of the target delay after `t0` has already passed, and reports the total. */
  function SleepRemaining(t0: real, dt: Option<real>, drawn: real): (total: real)
    ensures var target := if dt.Some? then dt.value else drawn;
      total == Max(t0, target) && t0 <= total
  {
    var target := if dt.Some? then dt.value else drawn;
    t0 + Sleep(Some(Max(0.0, target - t0)), drawn)
  }

  // ---------------------------------------------------------------------
  // Sampling strategies

  /** What `sample(size)` hands back: a bare number for size 1, a list otherwise. */
  datatype Sampled = Scalar(value: real) | Batch(values: seq<real>)
  {
    function Values(): seq<real>
    {
      if Scalar? then [value] else values
    }
  }

  /** A sample together with how many stream entries producing it consumed. */
  datatype Drawn = Drawn(sample: Sampled, used: nat)

  predicate NonNegative(s: Sampled)
  {
    forall k :: 0 <= k < |s.Values()| ==> 0.0 <= s.Values()[k]
  }

  /** The shape `sample(size)` promises: a scalar for 1, else a list of `size`
      elements (none for a negative size). */
  predicate HasShape(s: Sampled, size: int)
  {
    if size == 1 then s.Scalar? else s.Batch? && |s.values| == if size < 0 then 0 else size
  }

  datatype ConstantStrategy = ConstantStrategy(constant: real)
  {
    /** `ConstantStrategy.sample(size)`: `constant`, or `np.ones(size) * constant`. */
    function Sample(size: int): (r: Result<Sampled, PyError>)
      ensures size < 0 <==> r == Err(NegativeDimensions)
      ensures r.Ok? ==> HasShape(r.value, size)
      ensures r.Ok? ==> forall k :: 0 <= k < |r.value.Values()| ==> r.value.Values()[k] == constant
    {
      if size == 1 then Ok(Scalar(constant))
      else if size < 0 then Err(NegativeDimensions)
      else Ok(Batch(seq(size, _ => constant)))
    }
  }

  /** The values kept by a rejection sampler: the non-negative ones, in order. */
  function NonNeg(xs: seq<real>): (r: seq<real>)
    ensures forall k :: 0 <= k < |r| ==> 0.0 <= r[k]
  {
    if xs == [] then []
    else (if 0.0 <= xs[0] then [xs[0]] else []) + NonNeg(xs[1..])
  }

  lemma {:induction false} NonNegAppend(xs: seq<real>, ys: seq<real>)
    ensures NonNeg(xs + ys) == NonNeg(xs) + NonNeg(ys)
  {
    if xs == [] {
      assert xs + ys == ys;
    } else {
      assert (xs + ys)[0] == xs[0];
      assert (xs + ys)[1..] == xs[1..] + ys;
      NonNegAppend(xs[1..], ys);
    }
  }

  datatype NormalStrategy = NormalStrategy(mu: real, sigma: real)
  {
    /** The normal draw made from stream position `pos`. */
    function Attempt(z: seq<real>, pos: nat): real
      requires pos < |z|
    {
      mu + sigma * z[pos]
    }

    /** The values of the attempts from `from`, `size` stream entries apart,
        while a whole attempt still fits before `to`. */
    function AttemptVals(z: seq<real>, size: nat, from: nat, to: nat): seq<real>
      requires 1 <= size && from <= to <= |z|
      decreases (to as int) - (from as int)
    {
      if from + size > to then [] else [Attempt(z, from)] + AttemptVals(z, size, from + size, to)
    }

    /** The rejection loop for one element: attempt after attempt from `pos`
        until one is non-negative; yields it and the position after it. Each
        attempt consumes `size` stream entries and uses the first. */
    function FirstAccepted(z: seq<real>, size: nat, pos: nat): (r: Option<(real, nat)>)
      requires 1 <= size
      ensures r.Some? ==> 0.0 <= r.value.0 && pos + size <= r.value.1 <= |z|
      decreases |z| - pos
    {
      if pos + size > |z| then None
      else if 0.0 <= Attempt(z, pos) then Some((Attempt(z, pos), pos + size))
      else FirstAccepted(z, size, pos + size)
    }

    /** `count` more elements drawn from `pos`, appended to `acc`. */
    function DrawsFrom(z: seq<real>, size: nat, count: nat, pos: nat, acc: seq<real>)
      : (r: Option<(seq<real>, nat)>)
      requires 1 <= size && pos <= |z|
      ensures r.Some? ==> |r.value.0| == |acc| + count && pos <= r.value.1 <= |z|
      decreases count
    {
      if count == 0 then Some((acc, pos))
      else match FirstAccepted(z, size, pos)
        case None => None
        case Some((a, next)) => DrawsFrom(z, size, count - 1, next, acc + [a])
    }

    /** What `NormalStrategy.sample(size)` returns on the standard-normal stream `z`. */
    function SampleOf(size: int, z: seq<real>): Result<Drawn, PyError>
    {
      if size <= 0 then Ok(Drawn(Batch([]), 0))
      else if sigma < 0.0 then Err(NegativeScale)
      else match DrawsFrom(z, size, size, 0, [])
        case None => Err(DrawsExhausted)
        case Some((vs, used)) =>
          Ok(Drawn(if size == 1 then Scalar(vs[0]) else Batch(vs), used))
    }

    /** One attempt of the rejection loop. */
    lemma FirstAcceptedUnfold(z: seq<real>, size: nat, pos: nat)
      requires 1 <= size && pos + size <= |z|
      ensures FirstAccepted(z, size, pos)
           == if 0.0 <= Attempt(z, pos) then Some((Attempt(z, pos), pos + size))
              else FirstAccepted(z, size, pos + size)
    {
    }

    /** One element drawn. */
    lemma DrawsFromUnfold(z: seq<real>, size: nat, count: nat, pos: nat, acc: seq<real>)
      requires 1 <= size && pos <= |z| && 0 < count && FirstAccepted(z, size, pos).Some?
      ensures var (a, next) := FirstAccepted(z, size, pos).value;
        DrawsFrom(z, size, count, pos, acc) == DrawsFrom(z, size, count - 1, next, acc + [a])
    {
    }

    /** The inner loop of `sample`: draw until the draw is non-negative,
        starting at stream position `pos`; yields the value and the position
        after it. numpy refuses a negative scale at the first draw. */
    method DrawOne(size: nat, z: seq<real>, pos: nat) returns (r: Result<(real, nat), PyError>)
      requires 1 <= size && pos <= |z|
      ensures sigma < 0.0 ==> r == Err(NegativeScale)
      ensures 0.0 <= sigma ==> r == match FirstAccepted(z, size, pos)
                                     case None => Err(DrawsExhausted)
                                     case Some(d) => Ok(d)
    {
      var a := -1.0;
      var p := pos;
      while a < 0.0
        invariant pos <= p <= |z|
        invariant a < 0.0 ==> FirstAccepted(z, size, pos) == FirstAccepted(z, size, p)
        invariant 0.0 <= a ==> FirstAccepted(z, size, pos) == Some((a, p)) && 0.0 <= sigma
        decreases |z| - p
      {
        if sigma < 0.0 {
          return Err(NegativeScale);
        }
        if p + size > |z| {
          return Err(DrawsExhausted);
        }
        FirstAcceptedUnfold(z, size, p);
        a := mu + sigma * z[p];
        assert a == Attempt(z, p);
        p := p + size;
      }
      r := Ok((a, p));
    }

    /** `NormalStrategy.sample(size)`: for each of `size` elements, draw until
        the draw is non-negative. */
    method Sample(size: int, z: seq<real>) returns (r: Result<Drawn, PyError>)
      ensures r == SampleOf(size, z)
    {
      var res: seq<real> := [];
      var pos: nat := 0;
      var i := 0;
      ghost var n: nat := if size < 0 then 0 else size;
      while i < size
        invariant 0 <= i <= n
        invariant |res| == i && pos <= |z| && (i == 0 ==> pos == 0)
        invariant 0 < i ==> 0.0 <= sigma
        invariant 0 < size ==> DrawsFrom(z, size, size, 0, []) == DrawsFrom(z, size, size - i, pos, res)
      {
        var d := DrawOne(size, z, pos);
        if d.Err? {
          return Err(d.error);
        }
        DrawsFromUnfold(z, size, size - i, pos, res);
        res := res + [d.value.0];
        pos := d.value.1;
        i := i + 1;
      }
      if size == 1 {
        r := Ok(Drawn(Scalar(res[0]), pos));
      } else {
        r := Ok(Drawn(Batch(res), pos));
      }
    }

    lemma {:induction false} FirstAcceptedSplit(z: seq<real>, size: nat, pos: nat, q: nat)
      requires 1 <= size && q <= |z|
      requires FirstAccepted(z, size, pos).Some? && FirstAccepted(z, size, pos).value.1 <= q
      ensures var p := FirstAccepted(z, size, pos).value.1;
        AttemptVals(z, size, pos, q) == AttemptVals(z, size, pos, p) + AttemptVals(z, size, p, q)
      decreases |z| - pos
    {
      var p := FirstAccepted(z, size, pos).value.1;
      if 0.0 > Attempt(z, pos) {
        FirstAcceptedSplit(z, size, pos + size, q);
      } else {
        assert AttemptVals(z, size, pos, p) == [Attempt(z, pos)];
      }
    }

    /** The element one rejection loop yields is the first non-negative attempt:
        every earlier attempt was negative, and it was the last one made. */
    lemma {:induction false} FirstAcceptedIsFirstNonNegative(z: seq<real>, size: nat, pos: nat)
      requires 1 <= size && FirstAccepted(z, size, pos).Some?
      ensures var (a, p) := FirstAccepted(z, size, pos).value;
        NonNeg(AttemptVals(z, size, pos, p)) == [a] && Attempt(z, p - size) == a
      decreases |z| - pos
    {
      var p := FirstAccepted(z, size, pos).value.1;
      if 0.0 > Attempt(z, pos) {
        FirstAcceptedIsFirstNonNegative(z, size, pos + size);
        assert AttemptVals(z, size, pos, p) == [Attempt(z, pos)] + AttemptVals(z, size, pos + size, p);
      } else {
        assert AttemptVals(z, size, pos, p) == [Attempt(z, pos)];
      }
    }

    lemma {:induction false} DrawsFromAreNonNegativeAttempts(
      z: seq<real>, size: nat, count: nat, pos: nat, acc: seq<real>)
      requires 1 <= size && pos <= |z| && DrawsFrom(z, size, count, pos, acc).Some?
      ensures var (vs, q) := DrawsFrom(z, size, count, pos, acc).value;
        && vs == acc + NonNeg(AttemptVals(z, size, pos, q))
        && (0 < count ==> size <= q && 0.0 <= Attempt(z, q - size))
      decreases count
    {
      if count > 0 {
        var (a, p) := FirstAccepted(z, size, pos).value;
        var q := DrawsFrom(z, size, count, pos, acc).value.1;
        FirstAcceptedIsFirstNonNegative(z, size, pos);
        DrawsFromAreNonNegativeAttempts(z, size, count - 1, p, acc + [a]);
        FirstAcceptedSplit(z, size, pos, q);
        NonNegAppend(AttemptVals(z, size, pos, p), AttemptVals(z, size, p, q));
        if count == 1 {
          assert AttemptVals(z, size, p, q) == [];
        }
      }
    }

    /** A sample has the shape `sample(size)` promises; no element (size at
        most 0) needs no draw, and a negative spread fails at the first draw. */
    lemma SampleShape(size: int, z: seq<real>)
      ensures SampleOf(size, z).Ok? ==> HasShape(SampleOf(size, z).value.sample, size)
      ensures size <= 0 ==> SampleOf(size, z) == Ok(Drawn(Batch([]), 0))
      ensures 0 < size && sigma < 0.0 ==> SampleOf(size, z) == Err(NegativeScale)
    {
    }

    /** Every sample is non-negative. */
    lemma SampleNonNegative(size: int, z: seq<real>)
      requires SampleOf(size, z).Ok?
      ensures NonNegative(SampleOf(size, z).value.sample)
    {
      if 0 < size {
        DrawsFromAreNonNegativeAttempts(z, size, size, 0, []);
      }
    }

    /** The sample is exactly the non-negative attempts of the consumed stream
        prefix, in draw order, and the last attempt was accepted: each element
        is the first non-negative draw after the previous element. Zero is kept. */
    lemma SampleIsNonNegativeAttempts(size: int, z: seq<real>)
      requires 0 < size && SampleOf(size, z).Ok?
      ensures var d := SampleOf(size, z).value;
        && d.sample.Values() == NonNeg(AttemptVals(z, size, 0, d.used))
        && size <= d.used && 0.0 <= Attempt(z, d.used - size)
    {
      DrawsFromAreNonNegativeAttempts(z, size, size, 0, []);
      var vs := DrawsFrom(z, size, size, 0, []).value.0;
      if size == 1 {
        assert [vs[0]] == vs;
      }
    }

    lemma {:induction false} AllNegativeNeverAccepted(z: seq<real>, size: nat, pos: nat)
      requires 1 <= size && mu < 0.0 && sigma == 0.0
      ensures FirstAccepted(z, size, pos).None?
      decreases |z| - pos
    {
      if pos + size <= |z| {
        AllNegativeNeverAccepted(z, size, pos + size);
      }
    }

    /** With a negative mean and no spread every draw is rejected: the source
        never returns, whatever the stream. */
    lemma NegativeMeanNoSpreadNeverReturns(size: int, z: seq<real>)
      requires 0 < size && mu < 0.0 && sigma == 0.0
      ensures SampleOf(size, z) == Err(DrawsExhausted)
    {
      AllNegativeNeverAccepted(z, size, 0);
    }

    /** With no spread and a non-negative mean a single draw returns the mean. */
    lemma NoSpreadReturnsMean(z: seq<real>)
      requires 0.0 <= mu && sigma == 0.0 && 1 <= |z|
      ensures SampleOf(1, z) == Ok(Drawn(Scalar(mu), 1))
    {
      assert Attempt(z, 0) == mu;
      FirstAcceptedUnfold(z, 1, 0);
      DrawsFromUnfold(z, 1, 1, 0, []);
      assert [] + [mu] == [mu];
      assert DrawsFrom(z, 1, 0, 1, [mu]) == Some(([mu], 1));
    }
  }

  datatype LogNormalStrategy = LogNormalStrategy(mu: real, sigma: real)
  {
    /** `LogNormalStrategy.sample(size)` on the log-normal variates `draws`
        numpy would produce: the first one for size 1, else the first `size`. */
    function Sample(size: int, draws: seq<real>): (r: Result<Drawn, PyError>)
      ensures size < 0 ==> r == Err(NegativeDimensions)
      ensures r == Err(DrawsExhausted) <==> 0 <= size && |draws| < (if size == 1 then 1 else size)
      ensures r.Ok? ==> HasShape(r.value.sample, size)
      ensures r.Ok? ==> r.value.used <= |draws| && r.value.sample.Values() == draws[..r.value.used]
    {
      if size == 1 then
        if |draws| < 1 then Err(DrawsExhausted) else Ok(Drawn(Scalar(draws[0]), 1))
      else if size < 0 then Err(NegativeDimensions)
      else if |draws| < size then Err(DrawsExhausted)
      else Ok(Drawn(Batch(draws[..size]), size))
    }
  }
}
