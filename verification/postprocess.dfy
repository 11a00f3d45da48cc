/**
 * The result post-processor `process_simulation_output`: cross-cell
 * averages, capacity integrated from the mean current, state of charge,
 * the earliest cutoff (voltage floor or SoC exhausted) and the consistent
 * truncation of all eleven output series; plus the pack-level scaling the
 * plotting step applies to the processed data.
 */
module PostProcess {
  import opened Wrappers
  import opened Series

  /** Capacity is integrated in ampere-seconds and reported in ampere-hours. */
  const SecondsPerHour: real := 3600.0

  /** A table is one row per time step, each row holding at least one cell. */
  predicate IsTable(t: seq<seq<real>>, steps: nat)
  {
    |t| == steps && forall i :: 0 <= i < |t| ==> |t[i]| > 0
  }

  /** The solver output the post-processor reads, tables indexed [step][cell]. */
  datatype RawOutput = RawOutput(
    time: seq<real>,              // "Time [s]"
    current: seq<seq<real>>,      // "Cell current [A]"
    voltage: seq<seq<real>>,      // "Terminal voltage [V]"
    temperature: seq<seq<real>>,  // "Volume-averaged cell temperature [K]"
    heating: seq<seq<real>>)      // "Volume-averaged total heating [W.m-3]"
  {
    /** Every table has one non-empty row per time sample. */
    predicate WellShaped()
    {
      && IsTable(current, |time|)
      && IsTable(voltage, |time|)
      && IsTable(temperature, |time|)
      && IsTable(heating, |time|)
    }
  }

  /** The three module-level settings the post-processor reads. */
  datatype Config = Config(initialSoc: real, nominalCapacity: real, cutOffVoltage: real)

  /** The eleven series the post-processor returns. */
  datatype Processed = Processed(
    time: seq<real>,
    current: seq<seq<real>>,
    voltage: seq<seq<real>>,
    temperature: seq<seq<real>>,
    heating: seq<seq<real>>,
    currentAvg: seq<real>,
    voltageAvg: seq<real>,
    temperatureAvg: seq<real>,
    heatingAvg: seq<real>,
    capacityAh: seq<real>,
    soc: seq<real>)
  {
    /** All eleven series have length n. */
    predicate Aligned(n: nat)
    {
      && |time| == n && |current| == n && |voltage| == n
      && |temperature| == n && |heating| == n
      && |currentAvg| == n && |voltageAvg| == n
      && |temperatureAvg| == n && |heatingAvg| == n
      && |capacityAh| == n && |soc| == n
    }

    /** Every series cut to its first n samples (Python's `x[:n]`). */
    function Take(n: nat): (r: Processed)
      requires Aligned(|time|) && n <= |time|
      ensures r.Aligned(n)
    {
      Processed(time[..n], current[..n], voltage[..n], temperature[..n],
                heating[..n], currentAvg[..n], voltageAvg[..n],
                temperatureAvg[..n], heatingAvg[..n], capacityAh[..n], soc[..n])
    }
  }

  /** Which cutoff fired and at which step; the reason the source logs. */
  datatype Cutoff = NoCutoff | VoltageCutoff(index: nat) | SocCutoff(index: nat)

  datatype Report = Report(data: Processed, cutoff: Cutoff)

  /** Reading `time[1]` with fewer than two samples raises IndexError. */
  datatype ProcessError = TooFewSamples

  /** Per-step mean over the cell axis (`np.mean(t, axis=1)`). */
  function Means(t: seq<seq<real>>): (r: seq<real>)
    requires forall i :: 0 <= i < |t| ==> |t[i]| > 0
    ensures |r| == |t|
    ensures forall i :: 0 <= i < |t| ==> r[i] == Mean(t[i])
  {
    seq(|t|, i requires 0 <= i < |t| => Mean(t[i]))
  }

  /**
   * The time-step interval, taken from the first two samples only. Its use
   * is stated by ProcessCapacity.
   */
  function StepInterval(time: seq<real>): real
    requires |time| >= 2
  {
    time[1] - time[0]
  }

  /**
   * `np.cumsum(current_avg * delta_t) / 3600`: at step i, the integral of
   * the mean current over the first i+1 intervals, in ampere-hours.
   */
  function Capacity(currentAvg: seq<real>, dt: real): (r: seq<real>)
    ensures |r| == |currentAvg|
  {
    var cumulative := RunningSum(Scale(currentAvg, dt), 0.0);
    seq(|cumulative|, i requires 0 <= i < |cumulative| => cumulative[i] / SecondsPerHour)
  }

  /** Capacity at step i is dt times the sum of the first i+1 mean currents, over 3600. */
  lemma CapacityAt(currentAvg: seq<real>, dt: real, i: nat)
    requires i < |currentAvg|
    ensures Capacity(currentAvg, dt)[i] == dt * Sum(currentAvg[..i + 1]) / SecondsPerHour
  {
    ScaledPrefixSums(currentAvg, dt);
    RunningSumIsPrefixSum(Scale(currentAvg, dt), 0.0, i);
  }

  /** Summing a prefix of the scaled series is scaling the prefix sum. */
  lemma ScaledPrefixSums(s: seq<real>, k: real)
    ensures forall n :: 0 <= n <= |s| ==> Sum(Scale(s, k)[..n]) == k * Sum(s[..n])
  {
    forall n | 0 <= n <= |s|
      ensures Sum(Scale(s, k)[..n]) == k * Sum(s[..n])
    {
      SumScaleTake(s, k, n);
    }
  }

  /** `INITIAL_SOC - capacity_Ah / NOMINAL_CAPACITY`. */
  function StateOfCharge(capacityAh: seq<real>, cfg: Config): (r: seq<real>)
    requires cfg.nominalCapacity != 0.0
    ensures |r| == |capacityAh|
    ensures forall i :: 0 <= i < |r| ==> r[i] == cfg.initialSoc - capacityAh[i] / cfg.nominalCapacity
  {
    seq(|capacityAh|, i requires 0 <= i < |capacityAh| =>
      cfg.initialSoc - capacityAh[i] / cfg.nominalCapacity)
  }

  /**
   * All eleven series before any truncation. What they hold is stated, for
   * the returned prefix, by ProcessAverages, ProcessCapacity and ProcessSoc.
   */
  function Derive(raw: RawOutput, cfg: Config): (full: Processed)
    requires raw.WellShaped() && |raw.time| >= 2
    requires cfg.nominalCapacity != 0.0
    ensures full.Aligned(|raw.time|)
  {
    var currentAvg := Means(raw.current);
    var capacityAh := Capacity(currentAvg, StepInterval(raw.time));
    Processed(raw.time, raw.current, raw.voltage, raw.temperature, raw.heating,
              currentAvg, Means(raw.voltage), Means(raw.temperature),
              Means(raw.heating), capacityAh, StateOfCharge(capacityAh, cfg))
  }

  /**
   * The voltage cutoff is taken first; the SoC cutoff replaces it only when
   * there is none or the SoC index is strictly smaller.
   */
  function SelectCutoff(voltageIdx: Option<nat>, socIdx: Option<nat>): (c: Cutoff)
    ensures c.NoCutoff? <==> voltageIdx.None? && socIdx.None?
    ensures c.VoltageCutoff? ==> voltageIdx == Some(c.index)
    ensures c.SocCutoff? ==> socIdx == Some(c.index)
    ensures !c.NoCutoff? && voltageIdx.Some? ==> c.index <= voltageIdx.value
    ensures !c.NoCutoff? && socIdx.Some? ==> c.index <= socIdx.value
    ensures c.SocCutoff? && voltageIdx.Some? ==> c.index < voltageIdx.value
  {
    var afterVoltage := if voltageIdx.Some? then VoltageCutoff(voltageIdx.value) else NoCutoff;
    if socIdx.Some? && (afterVoltage.NoCutoff? || socIdx.value < afterVoltage.index) then
      SocCutoff(socIdx.value)
    else
      afterVoltage
  }

  /**
   * The earliest sample whose mean voltage is at or below the cutoff
   * voltage or whose SoC is at or below zero; at a tie the voltage reason
   * is given.
   */
  function FindCutoff(full: Processed, cfg: Config): (c: Cutoff)
    ensures c.NoCutoff? <==>
      && (forall j :: 0 <= j < |full.voltageAvg| ==> full.voltageAvg[j] > cfg.cutOffVoltage)
      && (forall j :: 0 <= j < |full.soc| ==> full.soc[j] > 0.0)
    ensures c.VoltageCutoff? ==>
      && c.index < |full.voltageAvg| && full.voltageAvg[c.index] <= cfg.cutOffVoltage
      && (forall j :: 0 <= j < c.index ==> full.voltageAvg[j] > cfg.cutOffVoltage)
      && (forall j :: 0 <= j < c.index && j < |full.soc| ==> full.soc[j] > 0.0)
    ensures c.SocCutoff? ==>
      && c.index < |full.soc| && full.soc[c.index] <= 0.0
      && (forall j :: 0 <= j < c.index ==> full.soc[j] > 0.0)
      && (forall j :: 0 <= j <= c.index && j < |full.voltageAvg| ==> full.voltageAvg[j] > cfg.cutOffVoltage)
  {
    SelectCutoff(FirstAtOrBelow(full.voltageAvg, cfg.cutOffVoltage),
                 FirstAtOrBelow(full.soc, 0.0))
  }

  /** Keep samples 0..k inclusive when a cutoff at k was found, else everything. */
  function Truncate(full: Processed, c: Cutoff): (r: Processed)
    requires full.Aligned(|full.time|)
    requires !c.NoCutoff? ==> c.index < |full.time|
    ensures c.NoCutoff? ==> r == full
    ensures !c.NoCutoff? ==> r.Aligned(c.index + 1)
    ensures |r.time| <= |full.time| && r == full.Take(|r.time|)
  {
    if c.NoCutoff? then full else full.Take(c.index + 1)
  }

  /** `process_simulation_output`, with the logged cutoff reason returned as a tag. */
  function Process(raw: RawOutput, cfg: Config): (r: Result<Report, ProcessError>)
    requires raw.WellShaped()
    requires cfg.nominalCapacity != 0.0
    ensures r.Failure? <==> |raw.time| < 2
    ensures r.Success? ==> 1 <= |r.value.data.time| <= |raw.time|
    ensures r.Success? ==> r.value.data.Aligned(|r.value.data.time|)
  {
    if |raw.time| < 2 then Failure(TooFewSamples)
    else
      var full := Derive(raw, cfg);
      var c := FindCutoff(full, cfg);
      Success(Report(Truncate(full, c), c))
  }

  // ---------------------------------------------------------------------
  // Properties of the processed result
  // ---------------------------------------------------------------------

  /** Each average at step i is the arithmetic mean of that step's cells. */
  lemma ProcessAverages(raw: RawOutput, cfg: Config, i: nat)
    requires raw.WellShaped() && cfg.nominalCapacity != 0.0
    requires Process(raw, cfg).Success?
    requires i < |Process(raw, cfg).value.data.time|
    ensures var d := Process(raw, cfg).value.data;
      && d.current[i] == raw.current[i] && d.voltage[i] == raw.voltage[i]
      && d.temperature[i] == raw.temperature[i] && d.heating[i] == raw.heating[i]
      && d.time[i] == raw.time[i]
      && d.currentAvg[i] == Mean(raw.current[i])
      && d.voltageAvg[i] == Mean(raw.voltage[i])
      && d.temperatureAvg[i] == Mean(raw.temperature[i])
      && d.heatingAvg[i] == Mean(raw.heating[i])
  {
  }

  /**
   * The returned capacity is the integral of the returned mean current
   * (see `CapacityAt` for its value at each step): truncating and
   * integrating commute.
   */
  lemma ProcessCapacity(raw: RawOutput, cfg: Config)
    requires raw.WellShaped() && cfg.nominalCapacity != 0.0
    requires Process(raw, cfg).Success?
    ensures var d := Process(raw, cfg).value.data;
      d.capacityAh == Capacity(d.currentAvg, StepInterval(raw.time))
  {
    var full := Derive(raw, cfg);
    var d := Process(raw, cfg).value.data;
    ProcessTruncatesConsistently(raw, cfg);
    CapacityTake(full.currentAvg, StepInterval(raw.time), |d.time|);
  }

  /** Integrating a prefix of the mean current gives the prefix of the capacity. */
  lemma CapacityTake(currentAvg: seq<real>, dt: real, n: nat)
    requires n <= |currentAvg|
    ensures Capacity(currentAvg, dt)[..n] == Capacity(currentAvg[..n], dt)
  {
    var kept := currentAvg[..n];
    forall i | 0 <= i < n
      ensures Capacity(currentAvg, dt)[..n][i] == Capacity(kept, dt)[i]
    {
      assert kept[..i + 1] == currentAvg[..i + 1];
      CapacityAt(currentAvg, dt, i);
      CapacityAt(kept, dt, i);
    }
  }

  /**
   * The returned SoC is derived from the returned capacity: at every step,
   * the initial SoC less capacity over nominal capacity.
   */
  lemma ProcessSoc(raw: RawOutput, cfg: Config)
    requires raw.WellShaped() && cfg.nominalCapacity != 0.0
    requires Process(raw, cfg).Success?
    ensures var d := Process(raw, cfg).value.data;
      && d.soc == StateOfCharge(d.capacityAh, cfg)
      && forall i :: 0 <= i < |d.soc| ==>
           d.soc[i] == cfg.initialSoc - d.capacityAh[i] / cfg.nominalCapacity
  {
    var full := Derive(raw, cfg);
    var d := Process(raw, cfg).value.data;
    ProcessTruncatesConsistently(raw, cfg);
    var n := |d.time|;
    assert d.soc == full.soc[..n];
    assert d.capacityAh == full.capacityAh[..n];
  }

  /**
   * The returned series end at the earliest cutoff: no sample before the
   * last one meets either condition; a voltage cutoff ends at a sample at or
   * below the cutoff voltage; a SoC cutoff ends at a sample with SoC at or
   * below zero whose voltage is still above the cutoff (a tie goes to the
   * voltage reason); with no cutoff, no sample meets either condition and
   * the full length is kept.
   */
  lemma ProcessCutoff(raw: RawOutput, cfg: Config)
    requires raw.WellShaped() && cfg.nominalCapacity != 0.0
    requires Process(raw, cfg).Success?
    ensures var rep := Process(raw, cfg).value;
      var d := rep.data;
      var n := |d.time|;
      && (forall j :: 0 <= j < n - 1 ==>
            d.voltageAvg[j] > cfg.cutOffVoltage && d.soc[j] > 0.0)
      && (rep.cutoff.NoCutoff? ==>
            n == |raw.time| &&
            forall j :: 0 <= j < n ==> d.voltageAvg[j] > cfg.cutOffVoltage && d.soc[j] > 0.0)
      && (rep.cutoff.VoltageCutoff? ==>
            n == rep.cutoff.index + 1 && d.voltageAvg[n - 1] <= cfg.cutOffVoltage)
      && (rep.cutoff.SocCutoff? ==>
            n == rep.cutoff.index + 1 && d.soc[n - 1] <= 0.0
            && d.voltageAvg[n - 1] > cfg.cutOffVoltage)
  {
    var full := Derive(raw, cfg);
    var vIdx := FirstAtOrBelow(full.voltageAvg, cfg.cutOffVoltage);
    var sIdx := FirstAtOrBelow(full.soc, 0.0);
    var c := SelectCutoff(vIdx, sIdx);
    var d := Process(raw, cfg).value.data;
    assert Process(raw, cfg).value.cutoff == c;
    assert d == Truncate(full, c);
  }

  /**
   * Truncation is applied to all eleven series together: the result is the
   * untruncated result cut to one common length, and it is the untruncated
   * result itself when no cutoff is found.
   */
  lemma ProcessTruncatesConsistently(raw: RawOutput, cfg: Config)
    requires raw.WellShaped() && cfg.nominalCapacity != 0.0
    requires Process(raw, cfg).Success?
    ensures var rep := Process(raw, cfg).value;
      var full := Derive(raw, cfg);
      && rep.data == full.Take(|rep.data.time|)
      && (rep.cutoff.NoCutoff? ==> rep.data == full)
      && (!rep.cutoff.NoCutoff? ==> |rep.data.time| == rep.cutoff.index + 1)
  {
    var full := Derive(raw, cfg);
    var rep := Process(raw, cfg).value;
    if rep.cutoff.NoCutoff? {
      assert full.Take(|full.time|) == full;
    }
  }

  /** Every element is at least every later one. */
  predicate NonIncreasing(s: seq<real>)
  {
    forall i, j :: 0 <= i <= j < |s| ==> s[i] >= s[j]
  }

  /** Every element is at most every later one. */
  predicate NonDecreasing(s: seq<real>)
  {
    forall i, j :: 0 <= i <= j < |s| ==> s[i] <= s[j]
  }

  /**
   * Under discharge (every mean current non-negative, time not decreasing
   * between the first two samples, positive nominal capacity) the returned
   * capacity never decreases and the returned SoC never increases.
   */
  lemma DischargeIsMonotone(raw: RawOutput, cfg: Config)
    requires raw.WellShaped() && cfg.nominalCapacity > 0.0
    requires |raw.time| >= 2 && raw.time[0] <= raw.time[1]
    requires forall k :: 0 <= k < |raw.current| ==> Mean(raw.current[k]) >= 0.0
    requires Process(raw, cfg).Success?
    ensures var d := Process(raw, cfg).value.data;
      NonDecreasing(d.capacityAh) && NonIncreasing(d.soc)
  {
    var d := Process(raw, cfg).value.data;
    ProcessCapacity(raw, cfg);
    ProcessSoc(raw, cfg);
    forall k | 0 <= k < |d.currentAvg|
      ensures d.currentAvg[k] >= 0.0
    {
      ProcessAverages(raw, cfg, k);
    }
    CapacityNonDecreasing(d.currentAvg, StepInterval(raw.time));
    SocNonIncreasing(d.capacityAh, cfg);
  }

  /** Capacity integrated from non-negative currents over a non-negative step never decreases. */
  lemma CapacityNonDecreasing(currentAvg: seq<real>, dt: real)
    requires dt >= 0.0
    requires forall k :: 0 <= k < |currentAvg| ==> currentAvg[k] >= 0.0
    ensures NonDecreasing(Capacity(currentAvg, dt))
  {
    forall i, j | 0 <= i <= j < |currentAvg|
      ensures Capacity(currentAvg, dt)[i] <= Capacity(currentAvg, dt)[j]
    {
      CapacityMonotone(currentAvg, dt, i, j);
    }
  }

  lemma DivideMonotone(a: real, b: real, n: real)
    requires a <= b && n > 0.0
    ensures a / n <= b / n
  {
    assert (b - a) / n >= 0.0;
  }

  /** SoC falls as capacity grows when the nominal capacity is positive. */
  lemma SocNonIncreasing(capacityAh: seq<real>, cfg: Config)
    requires cfg.nominalCapacity > 0.0 && NonDecreasing(capacityAh)
    ensures NonIncreasing(StateOfCharge(capacityAh, cfg))
  {
    var soc := StateOfCharge(capacityAh, cfg);
    forall i, j | 0 <= i <= j < |soc|
      ensures soc[i] >= soc[j]
    {
      DivideMonotone(capacityAh[i], capacityAh[j], cfg.nominalCapacity);
    }
  }

  /** Capacity integrated from non-negative currents over a non-negative step never decreases. */
  lemma CapacityMonotone(currentAvg: seq<real>, dt: real, i: nat, j: nat)
    requires dt >= 0.0
    requires forall k :: 0 <= k < |currentAvg| ==> currentAvg[k] >= 0.0
    requires i <= j < |currentAvg|
    ensures Capacity(currentAvg, dt)[i] <= Capacity(currentAvg, dt)[j]
  {
    var a := Sum(currentAvg[..i + 1]);
    var b := Sum(currentAvg[..j + 1]);
    CapacityAt(currentAvg, dt, i);
    CapacityAt(currentAvg, dt, j);
    PrefixSumMonotone(currentAvg, i + 1, j + 1);
    assert dt * (b - a) >= 0.0;
    assert dt * a <= dt * b;
  }

  /** Non-negative cell currents give non-negative mean currents. */
  lemma CellDischargeMeansDischarge(raw: RawOutput, k: nat)
    requires raw.WellShaped() && k < |raw.current|
    requires forall c :: 0 <= c < |raw.current[k]| ==> raw.current[k][c] >= 0.0
    ensures Mean(raw.current[k]) >= 0.0
  {
    var row := raw.current[k];
    SumLowerBound(row, 0.0);
  }

  /**
   * With a constant mean current c, capacity grows linearly:
   * capacity at step i is dt * c * (i + 1) / 3600.
   */
  lemma ConstantCurrentCapacity(currentAvg: seq<real>, c: real, dt: real, i: nat)
    requires forall k :: 0 <= k < |currentAvg| ==> currentAvg[k] == c
    requires i < |currentAvg|
    ensures Capacity(currentAvg, dt)[i] == dt * c * ((i + 1) as real) / SecondsPerHour
  {
    CapacityAt(currentAvg, dt, i);
    SumConstant(currentAvg[..i + 1], c);
  }

  // ---------------------------------------------------------------------
  // Pack-level scaling used by the plots
  // ---------------------------------------------------------------------

  /** Pack capacity: per-cell capacity times the parallel count. */
  function PackCapacity(d: Processed, numParallel: int): (r: seq<real>)
    ensures |r| == |d.capacityAh|
    ensures forall i :: 0 <= i < |r| ==> r[i] == d.capacityAh[i] * (numParallel as real)
  {
    Scale(d.capacityAh, numParallel as real)
  }

  /** Pack voltage: mean cell voltage times the series count. */
  function PackVoltage(d: Processed, numSeries: int): (r: seq<real>)
    ensures |r| == |d.voltageAvg|
    ensures forall i :: 0 <= i < |r| ==> r[i] == d.voltageAvg[i] * (numSeries as real)
  {
    Scale(d.voltageAvg, numSeries as real)
  }

  /**
   * The pack curves share the processed time axis and are the per-cell
   * curves scaled by Np and Ns; with Np non-negative, a non-decreasing cell
   * capacity (as under discharge, `DischargeIsMonotone`) gives a
   * non-decreasing pack capacity.
   */
  lemma PackCurves(d: Processed, numParallel: int, numSeries: int)
    requires d.Aligned(|d.time|)
    ensures var cap := PackCapacity(d, numParallel);
      var volt := PackVoltage(d, numSeries);
      && |cap| == |d.time| && |volt| == |d.time|
      && (forall i :: 0 <= i < |d.time| ==>
            cap[i] == d.capacityAh[i] * (numParallel as real)
            && volt[i] == d.voltageAvg[i] * (numSeries as real))
      && (numParallel >= 0 && NonDecreasing(d.capacityAh) ==> NonDecreasing(cap))
  {
    if numParallel >= 0 && NonDecreasing(d.capacityAh) {
      ScaleKeepsOrder(d.capacityAh, numParallel as real);
    }
  }

  /** Scaling by a non-negative factor keeps a non-decreasing series non-decreasing. */
  lemma ScaleKeepsOrder(s: seq<real>, k: real)
    requires k >= 0.0 && NonDecreasing(s)
    ensures NonDecreasing(Scale(s, k))
  {
    var r := Scale(s, k);
    forall i, j | 0 <= i <= j < |r|
      ensures r[i] <= r[j]
    {
      assert s[j] * k - s[i] * k == (s[j] - s[i]) * k;
      assert (s[j] - s[i]) * k >= 0.0;
    }
  }

  // ---------------------------------------------------------------------
  // A worked scenario
  // ---------------------------------------------------------------------

  /**
   * Four samples 10 s apart, a constant 5 A, mean voltages 4.0, 3.5, 3.2,
   * 2.9, cutoff 3.0 V, initial SoC 1, 5 Ah nominal: the voltage cutoff fires
   * at the last sample, nothing is dropped, and the final capacity is
   * 200/3600 Ah.
   */
  lemma FourSampleScenario()
    ensures var raw := RawOutput([0.0, 10.0, 20.0, 30.0],
                                 [[5.0], [5.0], [5.0], [5.0]],
                                 [[4.0], [3.5], [3.2], [2.9]],
                                 [[300.0], [300.0], [300.0], [300.0]],
                                 [[0.0], [0.0], [0.0], [0.0]]);
      var r := Process(raw, Config(1.0, 5.0, 3.0));
      && r.Success?
      && r.value.cutoff == VoltageCutoff(3)
      && |r.value.data.time| == 4
      && r.value.data.capacityAh[3] == 200.0 / 3600.0
  {
    var raw := RawOutput([0.0, 10.0, 20.0, 30.0],
                         [[5.0], [5.0], [5.0], [5.0]],
                         [[4.0], [3.5], [3.2], [2.9]],
                         [[300.0], [300.0], [300.0], [300.0]],
                         [[0.0], [0.0], [0.0], [0.0]]);
    var cfg := Config(1.0, 5.0, 3.0);
    var full := Derive(raw, cfg);
    forall k | 0 <= k < 4
      ensures full.currentAvg[k] == 5.0
    {
      MeanConstant(raw.current[k], 5.0);
    }
    forall k | 0 <= k < 4
      ensures full.voltageAvg[k] == Mean(raw.voltage[k]) == raw.voltage[k][0]
    {
      MeanConstant(raw.voltage[k], raw.voltage[k][0]);
    }
    forall k | 0 <= k < 4
      ensures full.capacityAh[k] == 10.0 * 5.0 * ((k + 1) as real) / SecondsPerHour
    {
      ConstantCurrentCapacity(full.currentAvg, 5.0, 10.0, k);
    }
    var vIdx := FirstAtOrBelow(full.voltageAvg, 3.0);
    assert vIdx == Some(3);
    var sIdx := FirstAtOrBelow(full.soc, 0.0);
    assert sIdx == None;
  }

  /**
   * One hour at 1C: 5 A from every cell, samples 10 s apart, initial SoC 1
   * and 5 Ah nominal, with the voltage never reaching the cutoff. The SoC
   * cutoff fires at sample 359 (t = 3590 s), where the capacity has reached
   * exactly 5 Ah and the SoC exactly 0; the 360 samples up to it are kept.
   */
  lemma OneHourAtOneC(raw: RawOutput, cutOff: real)
    requires raw.WellShaped() && |raw.time| >= 360
    requires raw.time[0] == 0.0 && raw.time[1] == 10.0
    requires forall k, c :: 0 <= k < |raw.current| && 0 <= c < |raw.current[k]| ==> raw.current[k][c] == 5.0
    requires forall k :: 0 <= k < |raw.voltage| ==> Mean(raw.voltage[k]) > cutOff
    ensures var r := Process(raw, Config(1.0, 5.0, cutOff));
      && r.Success? && r.value.cutoff == SocCutoff(359)
      && |r.value.data.time| == 360
      && r.value.data.capacityAh[359] == 5.0 && r.value.data.soc[359] == 0.0
  {
    var cfg := Config(1.0, 5.0, cutOff);
    var full := Derive(raw, cfg);
    forall k | 0 <= k < |full.currentAvg|
      ensures full.currentAvg[k] == 5.0
    {
      MeanConstant(raw.current[k], 5.0);
    }
    forall k | 0 <= k < |full.soc|
      ensures full.capacityAh[k] == 10.0 * 5.0 * ((k + 1) as real) / SecondsPerHour
      ensures full.soc[k] == 1.0 - ((k + 1) as real) / 360.0
    {
      ConstantCurrentCapacity(full.currentAvg, 5.0, 10.0, k);
    }
    var sIdx := FirstAtOrBelow(full.soc, 0.0);
    assert full.soc[359] <= 0.0;
    assert sIdx == Some(359);
    assert FirstAtOrBelow(full.voltageAvg, cutOff) == None;
  }
}
