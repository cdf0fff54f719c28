/** The records of dcgm-exporter text, field by field and by the metrics' own names
    (internal/collector/gpu/parser.go, ParseDCGMMetrics). */
module DeviceReadings {
  import opened Prelude
  import opened LabelSchema
  import opened Exposition
  import opened DeviceFold

  /** The labels name the GPU: by UUID, or by index if there is no UUID. */
  predicate NamesGpu(l: DcgmLabels, key: string) {
    key != "" && (l.uuid == key || (l.uuid == "" && l.gpu == key))
  }

  /** The sample reports a metric of the GPU, and is not a sentinel. */
  predicate Reads(s: Sample, key: string, name: string) {
    NamesGpu(s.labels, key) && s.name == name && s.value <= 1000000000000000.0
  }

  ghost predicate LastReads(samples: seq<Sample>, key: string, name: string, i: int) {
    && 0 <= i < |samples| && Reads(samples[i], key, name)
    && forall j :: i < j < |samples| ==> !Reads(samples[j], key, name)
  }

  ghost predicate IsRead(samples: seq<Sample>, key: string, name: string) {
    exists i :: LastReads(samples, key, name, i)
  }

  /** The figure is present exactly if the metric is read, and is its last reading's value. */
  ghost predicate ValueIs(samples: seq<Sample>, key: string, name: string, figure: Option<real>) {
    && (figure.Some? <==> IsRead(samples, key, name))
    && forall i :: LastReads(samples, key, name, i) ==> figure == Some(samples[i].value)
  }

  /** The same for a metric that is a ratio. */
  ghost predicate PercentIs(samples: seq<Sample>, key: string, name: string, figure: Option<real>) {
    && (figure.Some? <==> IsRead(samples, key, name))
    && forall i :: LastReads(samples, key, name, i) ==> figure == Some(samples[i].value * 100.0)
  }

  ghost predicate FlagIs(samples: seq<Sample>, key: string, name: string, flag: Option<bool>) {
    && (flag.Some? <==> IsRead(samples, key, name))
    && forall i :: LastReads(samples, key, name, i) ==> flag == Some(samples[i].value == 1.0)
  }

  /** The whole number of bytes in this many MiB, rounded toward zero. */
  predicate ByteCount(mib: real, bytes: int) {
    if mib >= 0.0 then bytes as real <= mib * 1048576.0 < bytes as real + 1.0
    else bytes as real - 1.0 < mib * 1048576.0 <= bytes as real
  }

  ghost predicate BytesAre(samples: seq<Sample>, key: string, name: string, bytes: Option<int>) {
    && (bytes.Some? <==> IsRead(samples, key, name))
    && forall i :: LastReads(samples, key, name, i) && bytes.Some? ==> ByteCount(samples[i].value, bytes.value)
  }

  ghost predicate FirstOfGpu(samples: seq<Sample>, key: string, i: int) {
    && 0 <= i < |samples| && NamesGpu(samples[i].labels, key)
    && forall j :: 0 <= j < i ==> !NamesGpu(samples[j].labels, key)
  }

  /** The profiling metric decides the utilization if it is read at all. */
  ghost predicate UtilizationIs(
    samples: seq<Sample>, key: string, profiling: string, device: string, utilization: Option<real>)
  {
    if IsRead(samples, key, profiling) then PercentIs(samples, key, profiling, utilization)
    else ValueIs(samples, key, device, utilization)
  }

  ghost predicate ActivityRead(samples: seq<Sample>, key: string, d: GpuDevice) {
    && UtilizationIs(samples, key, "DCGM_FI_PROF_GR_ENGINE_ACTIVE", "DCGM_FI_DEV_GPU_UTIL", d.utilization)
    && PercentIs(samples, key, "DCGM_FI_PROF_PIPE_TENSOR_ACTIVE", d.tensorActive)
    && ValueIs(samples, key, "DCGM_FI_DEV_MEM_COPY_UTIL", d.memCopyUtil)
  }

  /** Without a total of its own, a GPU has that of its used and free bytes. */
  ghost predicate TotalIs(
    samples: seq<Sample>, key: string, name: string, used: Option<int>, free: Option<int>, total: Option<int>)
  {
    if IsRead(samples, key, name) then BytesAre(samples, key, name, total)
    else total == if used.Some? && free.Some? then Some(used.value + free.value) else None
  }

  ghost predicate MemoryRead(samples: seq<Sample>, key: string, d: GpuDevice) {
    && BytesAre(samples, key, "DCGM_FI_DEV_FB_USED", d.memoryUsed)
    && BytesAre(samples, key, "DCGM_FI_DEV_FB_FREE", d.memoryFree)
    && TotalIs(samples, key, "DCGM_FI_DEV_FB_TOTAL", d.memoryUsed, d.memoryFree, d.memoryTotal)
  }

  ghost predicate StateRead(samples: seq<Sample>, key: string, d: GpuDevice) {
    && ValueIs(samples, key, "DCGM_FI_DEV_GPU_TEMP", d.temperature)
    && ValueIs(samples, key, "DCGM_FI_DEV_POWER_USAGE", d.power)
    && FlagIs(samples, key, "DCGM_FI_DEV_MIG_MODE", d.migEnabled)
  }

  /** The record says what the samples of the GPU say. */
  ghost predicate RecordRead(samples: seq<Sample>, key: string, d: GpuDevice) {
    && (exists i :: FirstOfGpu(samples, key, i) && d.labels == samples[i].labels)
    && ActivityRead(samples, key, d) && MemoryRead(samples, key, d) && StateRead(samples, key, d)
  }

  /** One record for every GPU that a sample names, and no other. */
  ghost predicate RecordsRead(samples: seq<Sample>, result: seq<GpuDevice>) {
    && (forall d :: d in result ==> exists key :: NamesGpu(d.labels, key) && RecordRead(samples, key, d))
    && (forall s, key :: s in samples && NamesGpu(s.labels, key) ==> exists d :: d in result && NamesGpu(d.labels, key))
    && (forall i, j, key :: 0 <= i < j < |result| ==>
          !(NamesGpu(result[i].labels, key) && NamesGpu(result[j].labels, key)))
  }

  // ---- From names to metrics ----

  /** The metric has this one name. */
  ghost predicate IsNamed(metric: Metric, name: string) {
    forall n :: MetricOf(n) == metric <==> n == name
  }

  lemma UtilizationNames()
    ensures IsNamed(EngineActive, "DCGM_FI_PROF_GR_ENGINE_ACTIVE")
    ensures IsNamed(GpuUtil, "DCGM_FI_DEV_GPU_UTIL")
  {
    assert MetricOf("DCGM_FI_PROF_GR_ENGINE_ACTIVE") == EngineActive;
    assert MetricOf("DCGM_FI_DEV_GPU_UTIL") == GpuUtil;
  }

  lemma ActivityNames()
    ensures IsNamed(TensorActive, "DCGM_FI_PROF_PIPE_TENSOR_ACTIVE")
    ensures IsNamed(MemCopyUtil, "DCGM_FI_DEV_MEM_COPY_UTIL")
  {
    assert MetricOf("DCGM_FI_PROF_PIPE_TENSOR_ACTIVE") == TensorActive;
    assert MetricOf("DCGM_FI_DEV_MEM_COPY_UTIL") == MemCopyUtil;
  }

  lemma MemoryNames()
    ensures IsNamed(FbUsed, "DCGM_FI_DEV_FB_USED")
    ensures IsNamed(FbFree, "DCGM_FI_DEV_FB_FREE")
    ensures IsNamed(FbTotal, "DCGM_FI_DEV_FB_TOTAL")
  {
    assert MetricOf("DCGM_FI_DEV_FB_USED") == FbUsed;
    assert MetricOf("DCGM_FI_DEV_FB_FREE") == FbFree;
    assert MetricOf("DCGM_FI_DEV_FB_TOTAL") == FbTotal;
  }

  lemma StateNames()
    ensures IsNamed(GpuTemp, "DCGM_FI_DEV_GPU_TEMP")
    ensures IsNamed(PowerUsage, "DCGM_FI_DEV_POWER_USAGE")
    ensures IsNamed(MigMode, "DCGM_FI_DEV_MIG_MODE")
  {
    assert MetricOf("DCGM_FI_DEV_GPU_TEMP") == GpuTemp;
    assert MetricOf("DCGM_FI_DEV_POWER_USAGE") == PowerUsage;
    assert MetricOf("DCGM_FI_DEV_MIG_MODE") == MigMode;
  }

  lemma PointNamesGpu(s: Sample, key: string)
    ensures NamesGpu(s.labels, key) <==> PointOf(s).Some? && PointOf(s).value.key == key
    ensures PointOf(s).Some? ==> PointOf(s).value.labels == s.labels
  {
  }

  lemma PointReads(s: Sample, key: string, name: string, metric: Metric)
    requires MetricOf(s.name) == metric <==> s.name == name
    ensures Reads(s, key, name) <==> PointOf(s).Some? && IsReading(PointOf(s).value, key, metric)
    ensures PointOf(s).Some? ==> PointOf(s).value.value == s.value
  {
    PointNamesGpu(s, key);
  }

  lemma LastReadsStep(p: seq<Sample>, s: Sample, key: string, name: string, i: int)
    ensures LastReads(p + [s], key, name, i) <==> if Reads(s, key, name) then i == |p| else LastReads(p, key, name, i)
  {
    var q := p + [s];
    assert q[|p|] == s && forall j :: 0 <= j < |p| ==> q[j] == p[j];
  }

  /** The last reading of a metric is the last sample of its name. */
  lemma {:induction false} LastOfName(samples: seq<Sample>, key: string, name: string, metric: Metric)
    requires IsNamed(metric, name)
    ensures LastValue(PointsOf(samples), key, metric).Some? <==> IsRead(samples, key, name)
    ensures forall i :: LastReads(samples, key, name, i) ==>
              LastValue(PointsOf(samples), key, metric) == Some(samples[i].value)
  {
    if samples != [] {
      var p, s := samples[..|samples| - 1], samples[|samples| - 1];
      assert samples == p + [s];
      LastOfName(p, key, name, metric);
      PointReads(s, key, name, metric);
      forall i
        ensures LastReads(samples, key, name, i) <==>
                if Reads(s, key, name) then i == |p| else LastReads(p, key, name, i)
      {
        LastReadsStep(p, s, key, name, i);
      }
      assert Reads(s, key, name) ==> LastReads(samples, key, name, |p|);
      if PointOf(s).Some? {
        LastValueStep(PointsOf(p), PointOf(s).value, key, metric);
      }
      if !Reads(s, key, name) {
        assert forall i :: LastReads(p, key, name, i) ==> samples[i] == p[i];
        assert IsRead(samples, key, name) <==> IsRead(p, key, name);
      }
    }
  }

  lemma FirstStep(p: seq<Sample>, s: Sample, key: string, i: int)
    ensures FirstOfGpu(p + [s], key, i) <==>
            FirstOfGpu(p, key, i)
            || (i == |p| && NamesGpu(s.labels, key) && forall j :: 0 <= j < |p| ==> !NamesGpu(p[j].labels, key))
  {
    var q := p + [s];
    assert q[|p|] == s && forall j :: 0 <= j < |p| ==> q[j] == p[j];
  }

  /** The first labels of a key are those of the first sample that names it. */
  lemma {:induction false} FirstOfName(samples: seq<Sample>, key: string)
    ensures FirstLabels(PointsOf(samples), key).Some? <==> exists i :: FirstOfGpu(samples, key, i)
    ensures FirstLabels(PointsOf(samples), key).None? ==>
              forall i :: 0 <= i < |samples| ==> !NamesGpu(samples[i].labels, key)
    ensures forall i :: FirstOfGpu(samples, key, i) ==>
              FirstLabels(PointsOf(samples), key) == Some(samples[i].labels)
  {
    if samples != [] {
      var p, s := samples[..|samples| - 1], samples[|samples| - 1];
      assert samples == p + [s];
      FirstOfName(p, key);
      PointNamesGpu(s, key);
      forall i
        ensures FirstOfGpu(samples, key, i) <==>
                FirstOfGpu(p, key, i)
                || (i == |p| && NamesGpu(s.labels, key) && forall j :: 0 <= j < |p| ==> !NamesGpu(p[j].labels, key))
      {
        FirstStep(p, s, key, i);
      }
      if PointOf(s).Some? {
        FirstLabelsStep(PointsOf(p), PointOf(s).value, key);
      }
      if FirstLabels(PointsOf(p), key).Some? {
        var i :| FirstOfGpu(p, key, i);
        assert FirstOfGpu(samples, key, i) && samples[i] == p[i];
      } else if NamesGpu(s.labels, key) {
        assert FirstOfGpu(samples, key, |p|);
      }
      assert forall i :: FirstOfGpu(p, key, i) ==> samples[i] == p[i];
    }
  }

  lemma TruncateIsByteCount(mib: real)
    ensures ByteCount(mib, Bytes(mib))
  {
    assert mib * MIB_TO_BYTES == mib * 1048576.0;
  }

  lemma BytesOfName(samples: seq<Sample>, key: string, name: string, metric: Metric)
    requires IsNamed(metric, name)
    ensures BytesAre(samples, key, name, MapReal(LastValue(PointsOf(samples), key, metric), Bytes))
  {
    LastOfName(samples, key, name, metric);
    forall i | LastReads(samples, key, name, i)
      ensures ByteCount(samples[i].value, Bytes(samples[i].value))
    {
      TruncateIsByteCount(samples[i].value);
    }
  }

  lemma PercentOfName(samples: seq<Sample>, key: string, name: string, metric: Metric)
    requires IsNamed(metric, name)
    ensures PercentIs(samples, key, name, MapReal(LastValue(PointsOf(samples), key, metric), Percent))
  {
    LastOfName(samples, key, name, metric);
  }

  lemma ValueOfName(samples: seq<Sample>, key: string, name: string, metric: Metric)
    requires IsNamed(metric, name)
    ensures ValueIs(samples, key, name, LastValue(PointsOf(samples), key, metric))
  {
    LastOfName(samples, key, name, metric);
  }

  lemma FlagOfName(samples: seq<Sample>, key: string, name: string, metric: Metric)
    requires IsNamed(metric, name)
    ensures FlagIs(samples, key, name, MapReal(LastValue(PointsOf(samples), key, metric), IsOne))
  {
    LastOfName(samples, key, name, metric);
  }

  lemma UtilizationFrom(
    samples: seq<Sample>, key: string, profiling: string, device: string, prof: Option<real>, util: Option<real>)
    requires PercentIs(samples, key, profiling, prof) && ValueIs(samples, key, device, util)
    ensures UtilizationIs(samples, key, profiling, device, if prof.Some? then prof else util)
  {
  }

  lemma UtilizationOfName(samples: seq<Sample>, key: string, profiling: string, device: string)
    requires IsNamed(EngineActive, profiling) && IsNamed(GpuUtil, device)
    requires FirstLabels(PointsOf(samples), key).Some?
    ensures UtilizationIs(samples, key, profiling, device, Record(PointsOf(samples), key).utilization)
  {
    PercentOfName(samples, key, profiling, EngineActive);
    ValueOfName(samples, key, device, GpuUtil);
    UtilizationFrom(samples, key, profiling, device,
                    MapReal(LastValue(PointsOf(samples), key, EngineActive), Percent),
                    LastValue(PointsOf(samples), key, GpuUtil));
    RecordUtilization(PointsOf(samples), key);
  }

  lemma ActivityOfKey(samples: seq<Sample>, key: string)
    requires FirstLabels(PointsOf(samples), key).Some?
    ensures ActivityRead(samples, key, Record(PointsOf(samples), key))
  {
    UtilizationNames();
    ActivityNames();
    UtilizationOfName(samples, key, "DCGM_FI_PROF_GR_ENGINE_ACTIVE", "DCGM_FI_DEV_GPU_UTIL");
    PercentOfName(samples, key, "DCGM_FI_PROF_PIPE_TENSOR_ACTIVE", TensorActive);
    ValueOfName(samples, key, "DCGM_FI_DEV_MEM_COPY_UTIL", MemCopyUtil);
  }

  lemma TotalFrom(
    samples: seq<Sample>, key: string, name: string, used: Option<int>, free: Option<int>, total: Option<int>)
    requires BytesAre(samples, key, name, total)
    ensures TotalIs(samples, key, name, used, free,
                    if total.Some? then total
                    else if used.Some? && free.Some? then Some(used.value + free.value) else None)
  {
  }

  lemma RecordMemory(points: seq<Point>, key: string)
    requires FirstLabels(points, key).Some?
    ensures var d := Record(points, key);
            && d.memoryUsed == MapReal(LastValue(points, key, FbUsed), Bytes)
            && d.memoryFree == MapReal(LastValue(points, key, FbFree), Bytes)
            && d.memoryTotal ==
               var total := MapReal(LastValue(points, key, FbTotal), Bytes);
               if total.Some? then total
               else if d.memoryUsed.Some? && d.memoryFree.Some? then Some(d.memoryUsed.value + d.memoryFree.value)
               else None
  {
  }

  lemma MemoryFrom(samples: seq<Sample>, key: string, d: GpuDevice, total: Option<int>)
    requires BytesAre(samples, key, "DCGM_FI_DEV_FB_USED", d.memoryUsed)
    requires BytesAre(samples, key, "DCGM_FI_DEV_FB_FREE", d.memoryFree)
    requires BytesAre(samples, key, "DCGM_FI_DEV_FB_TOTAL", total)
    requires d.memoryTotal ==
             if total.Some? then total
             else if d.memoryUsed.Some? && d.memoryFree.Some? then Some(d.memoryUsed.value + d.memoryFree.value)
             else None
    ensures MemoryRead(samples, key, d)
  {
    TotalFrom(samples, key, "DCGM_FI_DEV_FB_TOTAL", d.memoryUsed, d.memoryFree, total);
  }

  lemma MemoryOfKey(samples: seq<Sample>, key: string)
    requires FirstLabels(PointsOf(samples), key).Some?
    ensures MemoryRead(samples, key, Record(PointsOf(samples), key))
  {
    var points := PointsOf(samples);
    MemoryNames();
    BytesOfName(samples, key, "DCGM_FI_DEV_FB_USED", FbUsed);
    BytesOfName(samples, key, "DCGM_FI_DEV_FB_FREE", FbFree);
    BytesOfName(samples, key, "DCGM_FI_DEV_FB_TOTAL", FbTotal);
    RecordMemory(points, key);
    MemoryFrom(samples, key, Record(points, key), MapReal(LastValue(points, key, FbTotal), Bytes));
  }

  lemma StateOfKey(samples: seq<Sample>, key: string)
    requires FirstLabels(PointsOf(samples), key).Some?
    ensures StateRead(samples, key, Record(PointsOf(samples), key))
  {
    StateNames();
    ValueOfName(samples, key, "DCGM_FI_DEV_GPU_TEMP", GpuTemp);
    ValueOfName(samples, key, "DCGM_FI_DEV_POWER_USAGE", PowerUsage);
    FlagOfName(samples, key, "DCGM_FI_DEV_MIG_MODE", MigMode);
  }

  /** Each field of a GPU's record, by the metrics' names. */
  lemma RecordOfKey(samples: seq<Sample>, key: string)
    requires FirstLabels(PointsOf(samples), key).Some?
    ensures var d := Record(PointsOf(samples), key); NamesGpu(d.labels, key) && RecordRead(samples, key, d)
  {
    FirstOfName(samples, key);
    ActivityOfKey(samples, key);
    MemoryOfKey(samples, key);
    StateOfKey(samples, key);
  }

  lemma NamesOne(l: DcgmLabels, key: string, other: string)
    requires NamesGpu(l, key) && NamesGpu(l, other)
    ensures key == other
  {
  }

  /** A list of the records is one record per GPU, each as its samples have it. */
  lemma RecordsOfSamples(samples: seq<Sample>, result: seq<GpuDevice>)
    requires ListsRecords(result, PointsOf(samples))
    ensures RecordsRead(samples, result)
  {
    var points := PointsOf(samples);
    var order :| Enumerates(order, Keys(points)) && InOrder(result, points, order);
    forall i | 0 <= i < |result|
      ensures NamesGpu(result[i].labels, order[i]) && RecordRead(samples, order[i], result[i])
    {
      RecordOfKey(samples, order[i]);
    }
    forall s, key | s in samples && NamesGpu(s.labels, key)
      ensures exists d :: d in result && NamesGpu(d.labels, key)
    {
      PointNamesGpu(s, key);
      PointsOfMember(samples, PointOf(s).value);
      assert key in Keys(points);
      var i :| 0 <= i < |order| && order[i] == key;
      assert result[i] in result;
    }
    forall i, j, key | 0 <= i < j < |result| && NamesGpu(result[i].labels, key) && NamesGpu(result[j].labels, key)
      ensures false
    {
      NamesOne(result[i].labels, key, order[i]);
      NamesOne(result[j].labels, key, order[j]);
    }
  }

  /** The whole of ParseDCGMMetrics, from text to records. */
  method ParseDCGMMetrics(data: string, parseFloat: FloatParser) returns (result: seq<GpuDevice>)
    ensures ListsRecords(result, PointsOf(SamplesOf(ParseText(data, parseFloat))))
    ensures RecordsRead(SamplesOf(ParseText(data, parseFloat)), result)
  {
    var samples := ParsePrometheusText(data, parseFloat);
    result := FoldSamples(samples);
    RecordsOfSamples(samples, result);
  }
}
